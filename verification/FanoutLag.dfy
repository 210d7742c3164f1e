/**
 Whether the snapshot forwarded last lists the whole final table. A goroutine that has merged
 its last task event can be the last to forward, after all others have merged theirs; this
 module gives the condition on the turns and shows that a run that ends so meets it.
 */
module FanoutLag {
  import opened AggregatorSpec
  import opened Fanout
  import opened FanoutShape
  import opened FanoutDelivery
  import opened FanoutOutcome
  import opened FanoutResults
  import opened FanoutTasks
  import opened FanoutMerges
  import opened FanoutLimits
  import opened FanoutOrder
  import opened FanoutReplay
  import opened FanoutBacklog
  import opened FanoutPlans
  import opened FanoutOpening
  import opened FanoutReadyFirst
  import opened FanoutLatest
  import opened FanoutSnapshots
  import opened FanoutDue

  // ----- the condition -----

  /** The task events the replay merges when phase 2 opens at such a plan and the jobs are taken in this order. */
  function ReplayShare(traces: seq<seq<Event>>, prog: seq<nat>, order: seq<nat>): seq<Event>
    requires Extent(traces, prog)
  {
    if order == [] then []
    else
      (if order[0] < |traces| then TasksBefore(traces, prog, order[0]) else [])
        + ReplayShare(traces, prog, order[1..])
  }

  /** Those goroutine g merges in phase 2. */
  function Share(traces: seq<seq<Event>>, prog: seq<nat>, r: nat, order: seq<nat>, g: nat): seq<Event>
    requires Extent(traces, prog) && g < |traces|
  {
    if g == r then ReplayShare(traces, prog, order) + TasksBehind(traces, prog, g) else TasksBehind(traces, prog, g)
  }

  /** The goroutines before a that list the id. */
  function Listing(traces: seq<seq<Event>>, prog: seq<nat>, r: nat, order: seq<nat>, id: string, a: nat): set<nat>
    requires Extent(traces, prog) && a <= |traces|
  {
    set g | 0 <= g < a && id in Table(Share(traces, prog, r, order, g))
  }

  /** Goroutine a does not list the id, and can make its last merge while all that do are held back. */
  predicate Untouched(traces: seq<seq<Event>>, prog: seq<nat>, r: nat, order: seq<nat>, a: nat, id: string)
    requires Extent(traces, prog) && a < |traces|
  {
    id !in Table(Share(traces, prog, r, order, a)) && |Listing(traces, prog, r, order, id, a)| < MAX_JOBS
  }

  /** Goroutine c lists another item than b's last, and a's last merge comes upon it and leaves it, or is it. */
  predicate Older(traces: seq<seq<Event>>, prog: seq<nat>, r: nat, order: seq<nat>, a: nat, b: nat, id: string, c: nat,
                  n: nat)
    requires Extent(traces, prog) && a < |traces| && b < |traces| && Share(traces, prog, r, order, a) != []
    requires id in Table(Share(traces, prog, r, order, b))
  {
    var last := Share(traces, prog, r, order, a)[|Share(traces, prog, r, order, a)| - 1];
    && c < |traces| && n <= |Share(traces, prog, r, order, c)|
    && var some := Table(Share(traces, prog, r, order, c)[..n]);
    && id in some && some[id] != Table(Share(traces, prog, r, order, b))[id]
    && (c == a ==> n == |Share(traces, prog, r, order, a)|) && (id in Table([last]) ==> c == a)
  }

  /** Phase 2 can open so that b's last item under the id is merged after a's last merge, and changes the table. */
  ghost predicate Lags(traces: seq<seq<Event>>, launched: nat, prog: seq<nat>, r: nat, order: seq<nat>, a: nat, b: nat,
                       id: string)
  {
    && Fires(traces, launched, prog, r) && ValidOrder(order, |traces|) && a < |traces| && b < |traces| && a != b
    && Share(traces, prog, r, order, a) != [] && id in Table(Share(traces, prog, r, order, b))
    && (Untouched(traces, prog, r, order, a, id) || exists c, n :: Older(traces, prog, r, order, a, b, id, c, n))
  }

  ghost predicate CanLag(traces: seq<seq<Event>>) {
    exists launched: nat, prog: seq<nat>, r: nat, order: seq<nat>, a: nat, b: nat, id: string ::
      Lags(traces, launched, prog, r, order, a, b, id)
  }

  // ----- the lists when phase 2 opens -----

  lemma {:induction false} OwnTasks(evs: seq<Event>, g: nat)
    requires forall ev | ev in evs :: ev.source == Job(g)
    ensures TasksOf(evs) == Picks(Merges, evs, g)
  {
    if evs != [] {
      OwnTasks(evs[1..], g);
    }
  }

  lemma {:induction false} ReplayJobDue(owner: nat, events: seq<Event>)
    ensures DueOps(ReplayJob(owner, events)) == TasksOf(events)
  {
    if events != [] {
      var ops := ReplayJob(owner, events);
      assert ops[0] == Stream(owner, events[0]) && ops[1..] == ReplayJob(owner, events[1..]);
      assert events == [events[0]] + events[1..];
      TasksFirst(events[0], events[1..]);
      ReplayJobDue(owner, events[1..]);
    }
  }

  lemma {:induction false} ReplayDue(perJob: seq<PerJob>, traces: seq<seq<Event>>, prog: seq<nat>, order: seq<nat>)
    requires Extent(traces, prog) && |perJob| == |traces|
    requires forall o | 0 <= o < |traces| :: TasksOf(perJob[o].initBuffer) == TasksBefore(traces, prog, o)
    ensures DueOps(Replay(perJob, order)) == ReplayShare(traces, prog, order)
  {
    if order != [] {
      ReplayDue(perJob, traces, prog, order[1..]);
      if order[0] < |traces| {
        ReplayJobDue(order[0], perJob[order[0]].initBuffer);
        DueAppend(ReplayJob(order[0], perJob[order[0]].initBuffer), Replay(perJob, order[1..]));
      }
    }
  }

  /** Phase 2 opens with every group at its place in the plan. */
  ghost predicate OpensAt(mid: System, traces: seq<seq<Event>>, prog: seq<nat>, r: nat, c: Choice) {
    && Before(mid, traces) && Opens(mid, r, c) && Extent(traces, prog) && |mid.jobs| == |traces|
    && forall g | 0 <= g < |traces| ::
         PartsOf(Merges, mid, g) == Parts([], TasksBefore(traces, prog, g), TasksBehind(traces, prog, g))
  }

  lemma BufferDue(mid: System, traces: seq<seq<Event>>, prog: seq<nat>, r: nat, c: Choice, ev: Event, g: nat)
    requires OpensAt(mid, traces, prog, r, c) && g < |traces| && ev.kind.Ready? && ev.source == Job(r)
    ensures |Buffered(mid.agg, r, ev).perJob| == |traces|
    ensures TasksOf(Buffered(mid.agg, r, ev).perJob[g].initBuffer) == TasksBefore(traces, prog, g)
  {
    OwnersKnown(mid, traces);
    ReadyKept(Merges, mid.agg, r, ev, g);
    OwnTasks(Buffered(mid.agg, r, ev).perJob[g].initBuffer, g);
  }

  lemma FiredDue(traces: seq<seq<Event>>, prog: seq<nat>, perJob: seq<PerJob>, order: seq<nat>)
    requires Extent(traces, prog) && |perJob| == |traces|
    requires forall o | 0 <= o < |traces| :: TasksOf(perJob[o].initBuffer) == TasksBefore(traces, prog, o)
    ensures DueOps([Emit([SyntheticReady])] + Replay(perJob, order)) == ReplayShare(traces, prog, order)
  {
    ReplayDue(perJob, traces, prog, order);
    DueAppend([Emit([SyntheticReady])], Replay(perJob, order));
    DueOne(Emit([SyntheticReady]));
  }

  lemma OpenerTodo(mid: System, r: nat, c: Choice, ev: Event)
    requires Opens(mid, r, c) && mid.jobs[r].todo == [Buffer(ev)] && ev.kind.Ready?
    ensures |Next(mid, Exec(r, c)).jobs| == |mid.jobs|
    ensures Next(mid, Exec(r, c)).jobs[r].rest == mid.jobs[r].rest
    ensures Next(mid, Exec(r, c)).jobs[r].todo
         == [Emit([SyntheticReady])] + Replay(Buffered(mid.agg, r, ev).perJob, c.order)
  {
    ExecOnly(mid, r, c, Buffer(ev));
  }

  lemma OpenerDue(mid: System, traces: seq<seq<Event>>, prog: seq<nat>, r: nat, c: Choice)
    requires OpensAt(mid, traces, prog, r, c)
    ensures r < |Next(mid, Exec(r, c)).jobs| == |traces|
    ensures Due(Next(mid, Exec(r, c)).jobs[r]) == Share(traces, prog, r, c.order, r)
  {
    var ev := OpeningCall(mid, traces, r, c);
    OpenerTodo(mid, r, c, ev);
    forall g | 0 <= g < |traces|
      ensures |Buffered(mid.agg, r, ev).perJob| == |traces|
      ensures TasksOf(Buffered(mid.agg, r, ev).perJob[g].initBuffer) == TasksBefore(traces, prog, g)
    {
      BufferDue(mid, traces, prog, r, c, ev, g);
    }
    FiredDue(traces, prog, Buffered(mid.agg, r, ev).perJob, c.order);
    OpenerRestDue(mid, traces, prog, r, c);
  }

  lemma OpenerRestDue(mid: System, traces: seq<seq<Event>>, prog: seq<nat>, r: nat, c: Choice)
    requires OpensAt(mid, traces, prog, r, c)
    ensures TasksOf(mid.jobs[r].rest) == TasksBehind(traces, prog, r)
  {
    OpensReplay(Merges, mid, traces, r, c, r);
    var rest := mid.jobs[r].rest;
    assert Live(Merges, mid.jobs[r], r) == [] + Picks(Merges, rest, r) == Picks(Merges, rest, r);
    assert PartsOf(Merges, mid, r).late == TasksBehind(traces, prog, r);
    forall ev | ev in rest ensures ev.source == Job(r) {
      assert OriginOf(ev, r, traces);
    }
    OwnTasks(rest, r);
  }

  lemma EarlyDue(todo: seq<Op>, g: nat, traces: seq<seq<Event>>)
    requires CallShape(todo, g) && forall op | op in todo :: EarlyOp(op) && OpOk(op, g, traces)
    ensures DueOps(todo) == Carried(Merges, todo, g)
  {
    if todo != [] {
      var op := todo[0];
      assert op in todo;
      assert todo == [op] || todo == [op, Gate];
      CarriedOne(Merges, op, g);
      DueOne(op);
      DueOne(Gate);
      assert [op, Gate][1..] == [Gate];
      if op.Handle? || op.Buffer? {
        OwnTasks([op.ev], g);
      }
    }
  }

  lemma OtherDue(mid: System, traces: seq<seq<Event>>, prog: seq<nat>, r: nat, c: Choice, g: nat)
    requires OpensAt(mid, traces, prog, r, c) && g < |traces| && g != r
    ensures |Next(mid, Exec(r, c)).jobs| == |traces|
    ensures Due(Next(mid, Exec(r, c)).jobs[g]) == Share(traces, prog, r, c.order, g)
  {
    ExecElsewhere(mid, r, c, g);
    assert CallShape(mid.jobs[g].todo, g);
    EarlyDue(mid.jobs[g].todo, g, traces);
    OwnTasks(mid.jobs[g].rest, g);
  }

  // ----- where the last snapshot came from -----

  /** Entry k is the last task event of the log. */
  predicate LastTask(log: seq<Event>, k: nat) {
    k < |log| && log[k].kind.Task() && forall m | k < m < |log| :: !log[m].kind.Task()
  }

  ghost predicate AllMade(t: System) {
    forall j | 0 <= j < |t.jobs| :: Due(t.jobs[j]) == [] && !Pends(t.jobs[j])
  }

  lemma NewEntry(s: System, traces: seq<seq<Event>>, act: Action, k: nat)
    requires Late(s, traces) && Enabled(s, act) && |s.agg.log| <= k < |Next(s, act).agg.log|
    requires Next(s, act).agg.log[k].kind.Task()
    ensures act.Exec? && Pends(s.jobs[act.i]) && s.jobs[act.i].todo[0].evs[0] == Next(s, act).agg.log[k]
  {
    if act.Exec? {
      ExecLog(s.agg, act.i, s.jobs[act.i].todo[0], act.c);
      assert OpOk(s.jobs[act.i].todo[0], act.i, traces);
    } else {
      QuietTables(s, act);
    }
  }

  /** A pending snapshot is appended by the next step of its goroutine. */
  lemma PendsNext(s: System, traces: seq<seq<Event>>, act: Action, j: nat)
    requires Late(s, traces) && Enabled(s, act) && j < |s.jobs| && Pends(s.jobs[j])
    ensures |Next(s, act).jobs| == |s.jobs|
    ensures if act.Exec? && act.i == j then Next(s, act).agg.log == s.agg.log + s.jobs[j].todo[0].evs
            else Next(s, act).jobs[j].todo == s.jobs[j].todo
  {
    if act.Exec? {
      ExecLog(s.agg, act.i, s.jobs[act.i].todo[0], act.c);
    } else {
      assert OnlyFirst(s.jobs[j].todo);
      QuietPends(s, act, j);
    }
  }

  /** What a goroutine has still to merge or to forward is forwarded. */
  lemma {:induction false} WillLog(s: System, acts: seq<Action>, t: System, traces: seq<seq<Event>>, j: nat)
    returns (k: nat)
    requires Late(s, traces) && Runs(s, acts, t) && AllMade(t) && j < |s.jobs|
    requires Due(s.jobs[j]) != [] || Pends(s.jobs[j])
    ensures |s.agg.log| <= k < |t.agg.log| && t.agg.log[k].kind.Task()
    decreases acts
  {
    var act := acts[0];
    var s1 := Next(s, act);
    NextLate(s, traces, act);
    RunMonotone(s, [act], s1);
    if Pends(s.jobs[j]) && act.Exec? && act.i == j {
      PendsNext(s, traces, act, j);
      RunMonotone(s1, acts[1..], t);
      k := |s.agg.log|;
    } else {
      StillToLog(s, traces, act, j);
      k := WillLog(s1, acts[1..], t, traces, j);
    }
  }

  lemma StillToLog(s: System, traces: seq<seq<Event>>, act: Action, j: nat)
    requires Late(s, traces) && Enabled(s, act) && j < |s.jobs| && (Due(s.jobs[j]) != [] || Pends(s.jobs[j]))
    requires Pends(s.jobs[j]) ==> !(act.Exec? && act.i == j)
    ensures |Next(s, act).jobs| == |s.jobs|
    ensures Due(Next(s, act).jobs[j]) != [] || Pends(Next(s, act).jobs[j])
  {
    if Pends(s.jobs[j]) {
      PendsNext(s, traces, act, j);
    } else {
      StepDue(s, traces, act, j);
      if Merging(s, act, j) {
        ExecPends(s, traces, j, act.c);
      }
    }
  }

  /** Goroutine j will forward ev next, and merge no more. */
  ghost predicate Awaits(s: System, j: nat, ev: Event) {
    j < |s.jobs| && Pends(s.jobs[j]) && s.jobs[j].todo[0].evs[0] == ev && Due(s.jobs[j]) == []
  }

  /** From m goroutine j makes its last merge, and ev lists the table it leaves. */
  ghost predicate TakenAt(s: System, t: System, j: nat, ev: Event, before: seq<Action>, m: System, c: Choice,
                          after: seq<Action>)
  {
    && Runs(s, before, m) && Enabled(m, Exec(j, c)) && |m.agg.perJob| == |m.jobs| && m.jobs[j].todo[0].Merge?
    && Runs(Next(m, Exec(j, c)), after, t)
    && Awaits(Next(m, Exec(j, c)), j, ev) && Lists(ev.items, Next(m, Exec(j, c)).agg.tasks)
  }

  ghost predicate Taken(s: System, t: System, j: nat, ev: Event) {
    exists before, m, c, after :: TakenAt(s, t, j, ev, before, m, c, after)
  }

  /** The last snapshot of t was there at s, was pending, or is of a later merge, the last of its goroutine. */
  ghost predicate Came(s: System, t: System, j: nat, k: nat)
    requires k < |t.agg.log|
  {
    k < |s.agg.log| || Awaits(s, j, t.agg.log[k]) || Taken(s, t, j, t.agg.log[k])
  }

  lemma RunsAfter(s: System, act: Action, acts: seq<Action>, t: System)
    requires Enabled(s, act) && |s.agg.perJob| == |s.jobs| && Runs(Next(s, act), acts, t)
    ensures Runs(s, [act] + acts, t)
  {
    assert ([act] + acts)[0] == act && ([act] + acts)[1..] == acts;
  }

  lemma TakenLater(s: System, act: Action, t: System, j: nat, ev: Event)
    requires Enabled(s, act) && |s.agg.perJob| == |s.jobs| && Taken(Next(s, act), t, j, ev)
    ensures Taken(s, t, j, ev)
  {
    var s1 := Next(s, act);
    var before, m, c, after :| TakenAt(s1, t, j, ev, before, m, c, after);
    TakenAtLater(s, act, t, j, ev, s1, before, m, c, after);
  }

  lemma TakenAtLater(s: System, act: Action, t: System, j: nat, ev: Event, s1: System, before: seq<Action>, m: System,
                     c: Choice, after: seq<Action>)
    requires Enabled(s, act) && |s.agg.perJob| == |s.jobs| && s1 == Next(s, act)
    requires TakenAt(s1, t, j, ev, before, m, c, after)
    ensures TakenAt(s, t, j, ev, [act] + before, m, c, after)
  {
    RunsAfter(s, act, before, m);
  }

  lemma AwaitsEarlier(s: System, traces: seq<seq<Event>>, acts: seq<Action>, t: System, j: nat, ev: Event)
    requires Late(s, traces) && Runs(s, acts, t) && acts != [] && Awaits(Next(s, acts[0]), j, ev)
    ensures Awaits(s, j, ev) || Taken(s, t, j, ev)
  {
    var act := acts[0];
    StepDue(s, traces, act, j);
    if Merging(s, act, j) {
      TakenHere(s, traces, act.c, acts[1..], t, j, ev);
    } else {
      AwaitsStill(s, traces, act, j, ev);
    }
  }

  lemma TakenHere(s: System, traces: seq<seq<Event>>, c: Choice, after: seq<Action>, t: System, j: nat, ev: Event)
    requires Late(s, traces) && Enabled(s, Exec(j, c)) && s.jobs[j].todo[0].Merge?
    requires Runs(Next(s, Exec(j, c)), after, t) && Awaits(Next(s, Exec(j, c)), j, ev)
    ensures Taken(s, t, j, ev)
  {
    ExecPends(s, traces, j, c);
    assert Runs(s, [], s);
    assert TakenAt(s, t, j, ev, [], s, c, after);
  }

  lemma AwaitsStill(s: System, traces: seq<seq<Event>>, act: Action, j: nat, ev: Event)
    requires Late(s, traces) && Enabled(s, act) && Awaits(Next(s, act), j, ev) && !Merging(s, act, j)
    ensures Awaits(s, j, ev)
  {
    StepDue(s, traces, act, j);
    if act.Exec? {
      ExecPends(s, traces, act.i, act.c);
    } else {
      assert OnlyFirst(s.jobs[j].todo);
      QuietPends(s, act, j);
    }
  }

  lemma AppendedNow(s: System, traces: seq<seq<Event>>, acts: seq<Action>, t: System, k: nat) returns (j: nat)
    requires Late(s, traces) && Runs(s, acts, t) && acts != [] && AllMade(t) && LastTask(t.agg.log, k)
    requires |s.agg.log| <= k < |Next(s, acts[0]).agg.log|
    ensures Awaits(s, j, t.agg.log[k])
  {
    var act := acts[0];
    var s1 := Next(s, act);
    NextLate(s, traces, act);
    RunMonotone(s1, acts[1..], t);
    NewEntry(s, traces, act, k);
    j := act.i;
    StepDue(s, traces, act, j);
    if Due(s1.jobs[j]) != [] {
      var later := WillLog(s1, acts[1..], t, traces, j);
    }
  }

  lemma {:induction false} FindSnap(s: System, acts: seq<Action>, t: System, traces: seq<seq<Event>>, k: nat)
    returns (j: nat)
    requires Late(s, traces) && Runs(s, acts, t) && AllMade(t) && LastTask(t.agg.log, k)
    ensures Came(s, t, j, k)
    decreases acts
  {
    if acts == [] || k < |s.agg.log| {
      j := 0;
    } else if k < |Next(s, acts[0]).agg.log| {
      j := AppendedNow(s, traces, acts, t, k);
    } else {
      NextLate(s, traces, acts[0]);
      j := FindSnap(Next(s, acts[0]), acts[1..], t, traces, k);
      if Awaits(Next(s, acts[0]), j, t.agg.log[k]) {
        AwaitsEarlier(s, traces, acts, t, j, t.agg.log[k]);
      } else {
        TakenLater(s, acts[0], t, j, t.agg.log[k]);
      }
    }
  }

  // ----- from such a run to the condition -----

  /** Phase 2 has just opened: nothing is merged, and every goroutine has its share to merge. */
  ghost predicate Shared(s: System, traces: seq<seq<Event>>, prog: seq<nat>, r: nat, order: seq<nat>) {
    && Late(s, traces) && Extent(traces, prog) && s.agg.merged == []
    && forall g | 0 <= g < |traces| :: Due(s.jobs[g]) == Share(traces, prog, r, order, g)
  }

  lemma SinceStart(s: System, t: System)
    requires s.agg.merged == []
    ensures s.agg.merged <= t.agg.merged && Since(s, t) == t.agg.merged
  {
  }

  /** What goroutine g has merged of its share so far. */
  lemma MadeOf(s: System, acts: seq<Action>, m: System, traces: seq<seq<Event>>, prog: seq<nat>, r: nat,
               order: seq<nat>, g: nat)
    returns (made: seq<Event>)
    requires Shared(s, traces, prog, r, order) && Runs(s, acts, m) && g < |traces|
    ensures |m.jobs| == |traces| && Share(traces, prog, r, order, g) == made + Due(m.jobs[g])
    ensures forall id | id in Table(made) :: id in Table(m.agg.merged)
  {
    RunLate(s, acts, m, traces);
    made := TakenOff(s, acts, m, traces, g);
    SinceStart(s, m);
  }

  /** The group whose item the table has under the id. */
  lemma MadeLast(s: System, acts: seq<Action>, m: System, traces: seq<seq<Event>>, prog: seq<nat>, r: nat,
                 order: seq<nat>, id: string)
    returns (g: nat, made: seq<Event>)
    requires Shared(s, traces, prog, r, order) && Runs(s, acts, m) && id in Table(m.agg.merged)
    ensures g < |traces| == |m.jobs| && Share(traces, prog, r, order, g) == made + Due(m.jobs[g])
    ensures id in Table(made) && Table(made)[id] == Table(m.agg.merged)[id]
  {
    RunLate(s, acts, m, traces);
    SinceStart(s, m);
    g, made := LastBy(s, acts, m, traces, id);
  }

  lemma NewValue(m: System, t: System) returns (id: string)
    requires m.agg.merged <= t.agg.merged && Table(m.agg.merged) != Table(t.agg.merged)
    ensures id in Table(Since(m, t))
    ensures id in Table(m.agg.merged) ==> Table(m.agg.merged)[id] != Table(Since(m, t))[id]
  {
    assert t.agg.merged == m.agg.merged + Since(m, t);
    var was, now := Table(m.agg.merged), Table(t.agg.merged);
    forall x ensures x in was ==> x in now {
      TableAppend(m.agg.merged, Since(m, t), x);
    }
    if forall x | x in now :: x in was && was[x] == now[x] {
      SameMap(was, now);
    }
    id :| id in now && (id !in was || was[id] != now[id]);
    TableAppend(m.agg.merged, Since(m, t), id);
  }

  lemma SameMap(a: map<string, Item>, b: map<string, Item>)
    requires forall x | x in a :: x in b
    requires forall x | x in b :: x in a && a[x] == b[x]
    ensures a == b
  {
  }

  /** Goroutine a has made its last merge, x, at m; under the id goroutine b then changes the table for good. */
  ghost predicate Turned(s: System, acts: seq<Action>, m: System, traces: seq<seq<Event>>, prog: seq<nat>, r: nat,
                         order: seq<nat>, a: nat, x: Event, b: nat, id: string)
  {
    && Shared(s, traces, prog, r, order) && Runs(s, acts, m) && |m.jobs| == |traces| && a < |traces| && b < |traces|
    && a != b && m.agg.merged != [] && m.agg.merged[|m.agg.merged| - 1] == x
    && Share(traces, prog, r, order, a) != []
    && Share(traces, prog, r, order, a)[|Share(traces, prog, r, order, a)| - 1] == x
    && Due(m.jobs[a]) == [] && Lifecycle(m) && HoldsSlot(m.jobs[a])
    && id in Table(Share(traces, prog, r, order, b))
    && (id in Table(m.agg.merged) ==> Table(m.agg.merged)[id] != Table(Share(traces, prog, r, order, b))[id])
  }

  /** A group before a launched one that has something to merge holds a slot. */
  lemma DueHolds(m: System, g: nat, a: nat)
    requires Lifecycle(m) && g < a < |m.jobs| && HoldsSlot(m.jobs[a]) && Due(m.jobs[g]) != []
    ensures HoldsSlot(m.jobs[g])
  {
    assert ControlOk(m.jobs[g]) && !m.jobs[a].stage.Waiting?;
    DueOne(Emit([OuterResult]));
  }

  lemma ListingHolds(s: System, acts: seq<Action>, m: System, traces: seq<seq<Event>>, prog: seq<nat>, r: nat,
                     order: seq<nat>, a: nat, id: string, g: nat)
    requires Shared(s, traces, prog, r, order) && Runs(s, acts, m) && Lifecycle(m) && id !in Table(m.agg.merged)
    requires g < a < |traces| == |m.jobs| && id in Table(Share(traces, prog, r, order, g)) && HoldsSlot(m.jobs[a])
    ensures HoldsSlot(m.jobs[g])
  {
    var made := MadeOf(s, acts, m, traces, prog, r, order, g);
    TableAppend(made, Due(m.jobs[g]), id);
    DueHolds(m, g, a);
  }

  lemma TurnedUntouched(s: System, acts: seq<Action>, m: System, traces: seq<seq<Event>>, prog: seq<nat>, r: nat,
                     order: seq<nat>, a: nat, x: Event, b: nat, id: string)
    requires Turned(s, acts, m, traces, prog, r, order, a, x, b, id) && id !in Table(m.agg.merged)
    ensures Untouched(traces, prog, r, order, a, id)
  {
    var made := MadeOf(s, acts, m, traces, prog, r, order, a);
    assert made + [] == made;
    HoldersCount(m.jobs, a);
    forall g: nat | g in Listing(traces, prog, r, order, id, a) ensures g in Holders(m.jobs, a) {
      ListingHolds(s, acts, m, traces, prog, r, order, a, id, g);
    }
    FewHolders(m.jobs, a);
    SubsetSize(Listing(traces, prog, r, order, id, a), Holders(m.jobs, a));
  }

  lemma LastLists(evs: seq<Event>, x: Event, id: string)
    requires evs != [] && evs[|evs| - 1] == x && id in Table([x])
    ensures id in Table(evs) && Table(evs)[id] == Table([x])[id]
  {
    assert evs == evs[..|evs| - 1] + [x];
    TableAppend(evs[..|evs| - 1], [x], id);
  }

  lemma OlderOwn(traces: seq<seq<Event>>, prog: seq<nat>, r: nat, order: seq<nat>, a: nat, b: nat, id: string,
                 x: Event)
    requires Extent(traces, prog) && a < |traces| && b < |traces| && Share(traces, prog, r, order, a) != []
    requires Share(traces, prog, r, order, a)[|Share(traces, prog, r, order, a)| - 1] == x && id in Table([x])
    requires id in Table(Share(traces, prog, r, order, b))
    requires Table([x])[id] != Table(Share(traces, prog, r, order, b))[id]
    ensures Older(traces, prog, r, order, a, b, id, a, |Share(traces, prog, r, order, a)|)
  {
    var share := Share(traces, prog, r, order, a);
    LastLists(share, x, id);
    assert share[..|share|] == share;
  }

  lemma OlderOther(traces: seq<seq<Event>>, prog: seq<nat>, r: nat, order: seq<nat>, a: nat, b: nat, id: string,
                   c: nat, made: seq<Event>, due: seq<Event>)
    requires Extent(traces, prog) && a < |traces| && b < |traces| && c < |traces|
    requires Share(traces, prog, r, order, a) != [] && Share(traces, prog, r, order, c) == made + due
    requires id !in Table([Share(traces, prog, r, order, a)[|Share(traces, prog, r, order, a)| - 1]])
    requires c == a ==> due == []
    requires id in Table(Share(traces, prog, r, order, b)) && id in Table(made)
    requires Table(made)[id] != Table(Share(traces, prog, r, order, b))[id]
    ensures Older(traces, prog, r, order, a, b, id, c, |made|)
  {
    assert Share(traces, prog, r, order, c)[..|made|] == made;
  }

  lemma TurnedOlder(s: System, acts: seq<Action>, m: System, traces: seq<seq<Event>>, prog: seq<nat>, r: nat,
                    order: seq<nat>, a: nat, x: Event, b: nat, id: string)
    returns (c: nat, n: nat)
    requires Turned(s, acts, m, traces, prog, r, order, a, x, b, id) && id in Table(m.agg.merged)
    ensures Older(traces, prog, r, order, a, b, id, c, n)
  {
    if id in Table([x]) {
      LastLists(m.agg.merged, x, id);
      OlderOwn(traces, prog, r, order, a, b, id, x);
      c, n := a, |Share(traces, prog, r, order, a)|;
    } else {
      var made;
      c, made := MadeLast(s, acts, m, traces, prog, r, order, id);
      OlderOther(traces, prog, r, order, a, b, id, c, made, Due(m.jobs[c]));
      n := |made|;
    }
  }

  /** Who changes the table after goroutine a's last merge at m, and under which id. */
  lemma LaterValue(s: System, acts: seq<Action>, m: System, after: seq<Action>, t: System, traces: seq<seq<Event>>,
                   prog: seq<nat>, r: nat, order: seq<nat>, a: nat)
    returns (b: nat, id: string)
    requires Shared(s, traces, prog, r, order) && Runs(s, acts, m) && Runs(m, after, t) && AllMade(t)
    requires a < |m.jobs| && Due(m.jobs[a]) == [] && Table(m.agg.merged) != Table(t.agg.merged)
    ensures b < |traces| && b != a && id in Table(Share(traces, prog, r, order, b))
    ensures id in Table(m.agg.merged) ==> Table(m.agg.merged)[id] != Table(Share(traces, prog, r, order, b))[id]
  {
    RunLate(s, acts, m, traces);
    RunLate(m, after, t, traces);
    id := NewValue(m, t);
    var evs;
    b, evs := LastBy(m, after, t, traces, id);
    assert evs + [] == evs;
    var made := MadeOf(s, acts, m, traces, prog, r, order, b);
    TableAppend(made, evs, id);
  }

  lemma SingleMerge(due: seq<Event>, x: Event, made: seq<Event>)
    requires due != [] && due[0] == x && due[1..] == []
    ensures made + due != [] && (made + due)[|made + due| - 1] == x
  {
  }

  /** Goroutine a's last merge is the last of its share and of the history. */
  lemma LastMerge(s: System, before: seq<Action>, m: System, m2: System, traces: seq<seq<Event>>, prog: seq<nat>,
                  r: nat, order: seq<nat>, a: nat, x: Event)
    requires Shared(s, traces, prog, r, order) && Runs(s, before, m) && a < |traces| == |m.jobs|
    requires Takes(m, m2, a, true) && Due(m.jobs[a])[0] == x && Due(m2.jobs[a]) == []
    ensures var share := Share(traces, prog, r, order, a); share != [] && share[|share| - 1] == x
    ensures m2.agg.merged != [] && m2.agg.merged[|m2.agg.merged| - 1] == x
  {
    var made := MadeOf(s, before, m, traces, prog, r, order, a);
    SingleMerge(Due(m.jobs[a]), x, made);
  }

  lemma AwaitsHolds(m: System, a: nat, ev: Event)
    requires Lifecycle(m) && Awaits(m, a, ev)
    ensures HoldsSlot(m.jobs[a])
  {
    assert ControlOk(m.jobs[a]);
  }

  /** The run up to goroutine a's last merge meets the condition. */
  lemma TurnedLags(s: System, acts: seq<Action>, m: System, traces: seq<seq<Event>>, launched: nat, prog: seq<nat>,
                   r: nat, order: seq<nat>, a: nat, x: Event, b: nat, id: string)
    requires Fires(traces, launched, prog, r) && ValidOrder(order, |traces|)
    requires Turned(s, acts, m, traces, prog, r, order, a, x, b, id)
    ensures Lags(traces, launched, prog, r, order, a, b, id)
  {
    if id in Table(m.agg.merged) {
      var c, n := TurnedOlder(s, acts, m, traces, prog, r, order, a, x, b, id);
    } else {
      TurnedUntouched(s, acts, m, traces, prog, r, order, a, x, b, id);
    }
  }

  lemma TakenLags(s: System, t: System, traces: seq<seq<Event>>, launched: nat, prog: seq<nat>, r: nat,
                  order: seq<nat>, a: nat, ev: Event)
    requires Fires(traces, launched, prog, r) && ValidOrder(order, |traces|) && Shared(s, traces, prog, r, order)
    requires Taken(s, t, a, ev) && AllMade(t) && !Lists(ev.items, Table(t.agg.merged))
    ensures CanLag(traces)
  {
    var before, m, c, after :| TakenAt(s, t, a, ev, before, m, c, after);
    var acts, m2, x := LastOfShare(s, t, traces, prog, r, order, a, ev, before, m, c, after);
    var b, id := LaterValue(s, acts, m2, after, t, traces, prog, r, order, a);
    assert Turned(s, acts, m2, traces, prog, r, order, a, x, b, id);
    TurnedLags(s, acts, m2, traces, launched, prog, r, order, a, x, b, id);
  }

  /** The state goroutine a's last merge leaves. */
  lemma LastOfShare(s: System, t: System, traces: seq<seq<Event>>, prog: seq<nat>, r: nat, order: seq<nat>, a: nat,
                    ev: Event, before: seq<Action>, m: System, c: Choice, after: seq<Action>)
    returns (acts: seq<Action>, m2: System, x: Event)
    requires Shared(s, traces, prog, r, order) && TakenAt(s, t, a, ev, before, m, c, after)
    ensures Runs(s, acts, m2) && Runs(m2, after, t) && a < |traces| == |m2.jobs| && Lifecycle(m2)
    ensures HoldsSlot(m2.jobs[a]) && Due(m2.jobs[a]) == [] && Lists(ev.items, Table(m2.agg.merged))
    ensures var share := Share(traces, prog, r, order, a); share != [] && share[|share| - 1] == x
    ensures m2.agg.merged != [] && m2.agg.merged[|m2.agg.merged| - 1] == x
  {
    acts, m2, x := before + [Exec(a, c)], Next(m, Exec(a, c)), m.jobs[a].todo[0].ev;
    RunsOne(s, before, m, Exec(a, c));
    RunLate(s, before, m, traces);
    RunLate(s, acts, m2, traces);
    AwaitsHolds(m2, a, ev);
    MergeTakes(m, traces, a, c);
    LastMerge(s, before, m, m2, traces, prog, r, order, a, x);
  }

  // ----- whole runs -----

  lemma InitShows(traces: seq<seq<Event>>)
    ensures Shows(Init(traces), traces)
  {
    InitGood(traces);
  }

  lemma EarlyNotPending(g: Goroutine)
    requires forall op | op in g.todo :: EarlyOp(op)
    ensures !Pends(g)
  {
    if g.todo != [] && g.todo[0].Emit? && g.todo[0].evs != [] {
      assert g.todo[0] in g.todo && g.todo[0].evs[0] in g.todo[0].evs;
    }
  }

  lemma NothingPends(mid: System, traces: seq<seq<Event>>, r: nat, c: Choice)
    requires Before(mid, traces) && Opens(mid, r, c)
    ensures var s := Next(mid, Exec(r, c));
      && (forall j | 0 <= j < |s.jobs| :: !Pends(s.jobs[j]))
      && s.agg.merged == mid.agg.merged && forall ev | ev in s.agg.log :: !ev.kind.Task()
  {
    OpeningTodo(mid.agg, r, mid.jobs[r].todo[0], c);
    TriggerIsReady(mid, traces, r, c);
    var s := Next(mid, Exec(r, c));
    forall j | 0 <= j < |s.jobs| && j != r ensures !Pends(s.jobs[j]) {
      ExecElsewhere(mid, r, c, j);
      EarlyNotPending(mid.jobs[j]);
    }
  }

  /** Phase 2 opens with everything still to be merged. */
  lemma OpensShared(traces: seq<seq<Event>>, acts: seq<Action>, mid: System, prog: seq<nat>, r: nat, c: Choice)
    requires Runs(Init(traces), acts, mid) && OpensAt(mid, traces, prog, r, c)
    ensures Shared(Next(mid, Exec(r, c)), traces, prog, r, c.order)
    ensures forall j | 0 <= j < |traces| :: !Pends(Next(mid, Exec(r, c)).jobs[j])
    ensures forall ev | ev in Next(mid, Exec(r, c)).agg.log :: !ev.kind.Task()
  {
    InitShows(traces);
    RunShows(Init(traces), acts, mid, traces);
    ExecShows(mid, traces, r, c);
    InitInv(traces);
    RunTasks(Init(traces), acts, mid, traces);
    NextTasks(mid, Exec(r, c), traces);
    RunMerges(Init(traces), acts, mid, traces, ev => 0);
    NothingPends(mid, traces, r, c);
    OpenerDue(mid, traces, prog, r, c);
    forall g | 0 <= g < |traces|
      ensures Due(Next(mid, Exec(r, c)).jobs[g]) == Share(traces, prog, r, c.order, g)
    {
      if g != r {
        OtherDue(mid, traces, prog, r, c, g);
      }
    }
  }

  lemma NotThere(log: seq<Event>, k: nat)
    requires k < |log| && forall ev | ev in log :: !ev.kind.Task()
    ensures !log[k].kind.Task()
  {
  }

  lemma AtEndMade(traces: seq<seq<Event>>, acts: seq<Action>, t: System)
    requires Runs(Init(traces), acts, t) && t.main.Merged?
    ensures AllMade(t)
  {
    InitLifecycle(traces);
    RunLifecycle(Init(traces), acts, t);
    forall j | 0 <= j < |t.jobs| ensures Due(t.jobs[j]) == [] && !Pends(t.jobs[j]) {
      assert ControlOk(t.jobs[j]);
    }
  }

  lemma OpenedAt(traces: seq<seq<Event>>, acts: seq<Action>, t: System, k: nat, mid: System, r: nat, c: Choice,
                 launched: nat, prog: seq<nat>)
    requires Opened(traces, acts, t, k, mid, r, c, launched, prog)
    ensures OpensAt(mid, traces, prog, r, c) && ValidOrder(c.order, |traces|)
  {
    forall g | 0 <= g < |traces|
      ensures PartsOf(Merges, mid, g) == Parts([], TasksBefore(traces, prog, g), TasksBehind(traces, prog, g))
    {
      CutByPlan(traces, acts, t, k, mid, r, c, launched, prog, g);
    }
  }

  /** A complete run whose last forwarded snapshot is not the whole table needs turns in which that can happen. */
  lemma FindLag(traces: seq<seq<Event>>, acts: seq<Action>, t: System, k: nat)
    requires Runs(Init(traces), acts, t) && t.main.Merged? && LastTask(t.agg.log, k)
    requires t.agg.readyEmitted && !Lists(t.agg.log[k].items, t.agg.tasks)
    ensures CanLag(traces)
  {
    var n, mid, r, c, launched, prog := FindOpened(traces, acts, t);
    OpenedAt(traces, acts, t, n, mid, r, c, launched, prog);
    OpensShared(traces, acts[..n], mid, prog, r, c);
    AtEndMade(traces, acts, t);
    TaskTable(traces, acts, t);
    var s := Next(mid, Exec(r, c));
    var a := FindSnap(s, acts[n + 1..], t, traces, k);
    RunMonotone(s, acts[n + 1..], t);
    assert t.agg.log[k].kind.Task();
    if k < |s.agg.log| {
      NotThere(s.agg.log, k);
    }
    TakenLags(s, t, traces, launched, prog, r, c.order, a, t.agg.log[k]);
  }
}

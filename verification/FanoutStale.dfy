/**
 The task table can go stale wherever FanoutLatest does not rule it out: a complete run is
 built that replays an overwritten item last. With it the two halves give the exact condition.
 */
module FanoutStale {
  import opened Sums
  import opened AggregatorSpec
  import opened Fanout
  import opened FanoutDelivery
  import opened FanoutOutcome
  import opened FanoutTasks
  import opened FanoutProgress
  import opened FanoutOrder
  import opened FanoutReplay
  import opened FanoutBacklog
  import opened FanoutInOrder
  import opened FanoutPlans
  import opened FanoutOpening
  import opened FanoutReorder
  import opened FanoutLatest
  import opened FanoutSnapshots
  import opened FanoutDue
  import opened FanoutBeside

  // ----- the replay is let run to its last list -----

  ghost predicate Replaying(s: System, traces: seq<seq<Event>>, r: nat) {
    Late(s, traces) && |s.jobs| == |traces| && r < |s.jobs|
  }

  lemma HeadOf(x: seq<Op>, y: seq<Op>, ops: seq<Op>)
    requires x != []
    ensures x + y != [] && (x + y)[0] == x[0] && ops + (x + y)[1..] == (ops + x[1..]) + y
  {
  }

  lemma ReplayStep(s: System, traces: seq<seq<Event>>, r: nat, x: seq<Op>, y: seq<Op>)
    returns (act: Action, ops: seq<Op>)
    requires Replaying(s, traces, r) && x != [] && s.jobs[r].todo == x + y
    ensures Enabled(s, act) && Replaying(Next(s, act), traces, r) && 0 <= Cost(Next(s, act)) < Cost(s)
    ensures Next(s, act).jobs == s.jobs[r := s.jobs[r].(todo := (ops + x[1..]) + y)]
  {
    var c := SomeChoice(s.agg, x[0]);
    act, ops := Exec(r, c), ExecOp(s.agg, r, x[0], c).1;
    HeadOf(x, y, ops);
    CostsLess(s, traces, act);
  }

  lemma TodoTwice(jobs: seq<Goroutine>, r: nat, a: seq<Op>, b: seq<Op>)
    requires r < |jobs|
    ensures var once := jobs[r := jobs[r].(todo := a)]; once[r := once[r].(todo := b)] == jobs[r := jobs[r].(todo := b)]
  {
  }

  lemma {:induction false} RunDown(s: System, traces: seq<seq<Event>>, r: nat, x: seq<Op>, y: seq<Op>)
    returns (acts: seq<Action>, t: System)
    requires Replaying(s, traces, r) && s.jobs[r].todo == x + y
    ensures Runs(s, acts, t) && Replaying(t, traces, r) && t.jobs == s.jobs[r := s.jobs[r].(todo := y)]
    decreases Cost(s)
  {
    if x == [] {
      assert [] + y == y && s.jobs[r := s.jobs[r]] == s.jobs;
      acts, t := [], s;
    } else {
      var act, ops := ReplayStep(s, traces, r, x, y);
      CostNonNegative(s);
      TodoTwice(s.jobs, r, (ops + x[1..]) + y, y);
      var more, end := RunDown(Next(s, act), traces, r, ops + x[1..], y);
      acts, t := [act] + more, end;
    }
  }

  /** The jobs in any order that ends with i. */
  function EndsWith(n: nat, i: nat): seq<nat>
    requires i < n
  {
    Range(n)[..i] + Range(n)[i + 1..] + [i]
  }

  lemma EndsWithValid(n: nat, i: nat)
    requires i < n
    ensures ValidOrder(EndsWith(n, i), n)
  {
    assert Range(n) == Range(n)[..i] + [i] + Range(n)[i + 1..];
  }

  lemma {:induction false} ReplayEnd(perJob: seq<PerJob>, order: seq<nat>, i: nat)
    requires i < |perJob|
    ensures Replay(perJob, order + [i]) == Replay(perJob, order) + ReplayJob(i, perJob[i].initBuffer)
  {
    if order == [] {
      assert [] + [i] == [i] && [i][1..] == [];
      assert Replay(perJob, [i]) == ReplayJob(i, perJob[i].initBuffer) + Replay(perJob, [i][1..]);
    } else {
      assert (order + [i])[0] == order[0] && (order + [i])[1..] == order[1..] + [i];
      ReplayEnd(perJob, order[1..], i);
    }
  }

  /** What the section that opens phase 2 leaves when the iteration takes job i last. */
  lemma GateEnd(a: Aggregator, r: nat, ev: Event, order: seq<nat>, i: nat) returns (x: seq<Op>)
    requires r < |a.perJob| && i < |a.perJob| && i != r && ev.kind.Ready?
    requires !a.readyEmitted && BufferSection(a, r, ev, order + [i]).0.readyEmitted
    ensures BufferSection(a, r, ev, order + [i]).1 == x + ReplayJob(i, a.perJob[i].initBuffer)
  {
    var perJob := Buffered(a, r, ev).perJob;
    ReplayEnd(perJob, order, i);
    x := [Emit([SyntheticReady])] + Replay(perJob, order);
    assert x + ReplayJob(i, perJob[i].initBuffer) == [Emit([SyntheticReady])] + Replay(perJob, order + [i]);
  }

  // ----- what is still merged from there -----

  /** Only goroutine r is left, with group i's list to replay and then its own rest. */
  ghost predicate LastList(s: System, traces: seq<seq<Event>>, r: nat, i: nat, early: seq<Event>, rest: seq<Event>) {
    && Replaying(s, traces, r) && i < |traces| && i != r && Picks(Merges, s.jobs[r].rest, r) == rest
    && (forall j | 0 <= j < |traces| && j != r :: s.jobs[j].todo == [] && s.jobs[j].rest == [])
    && forall j | 0 <= j < |traces| :: Carried(Merges, s.jobs[r].todo, j) == if j == i then early else []
  }

  lemma OwnLeft(s: System, acts: seq<Action>, t: System, traces: seq<seq<Event>>, r: nat, i: nat, early: seq<Event>,
                rest: seq<Event>)
    requires LastList(s, traces, r, i, early, rest) && Runs(s, acts, t) && Finished(t, traces)
    ensures s.agg.merged <= t.agg.merged && Picks(Merges, t.agg.merged[|s.agg.merged|..], r) == rest
  {
    assert Carried(Merges, [], r) == [];
    assert [] + rest == rest;
    MergesLive(s, acts, t, traces, r);
  }

  lemma IdleCarries(g: Goroutine, j: nat)
    requires g.todo == [] && g.rest == []
    ensures Carried(Merges, g.todo, j) == [] && Live(Merges, g, j) == []
  {
  }

  lemma OtherLate(s: System, traces: seq<seq<Event>>, r: nat, i: nat, early: seq<Event>, rest: seq<Event>, j: nat)
    requires LastList(s, traces, r, i, early, rest) && j < |traces| && j != r
    ensures LateAt(Merges, s, r, j, Parts(Seen(Merges, s.agg, j), if j == i then early else [], []))
  {
    var q := Parts(Seen(Merges, s.agg, j), if j == i then early else [], []);
    IdleCarries(s.jobs[j], j);
    forall h | 0 <= h < |s.jobs| && h != j && h != r ensures Carried(Merges, s.jobs[h].todo, j) == [] {
      IdleCarries(s.jobs[h], j);
    }
    NothingYet(Merges, s, r, j, q);
    assert PartsAt(Merges, s, r, j, q, [], []);
  }

  lemma ReplayedAll(t: System, r: nat, j: nat, q: Parts)
    requires j < |t.jobs| && r < |t.jobs| && j != r && LateAt(Merges, t, r, j, q) && q.late == []
    requires Live(Merges, t.jobs[j], j) == [] && Carried(Merges, t.jobs[r].todo, j) == []
    ensures Seen(Merges, t.agg, j) == q.base + q.early
  {
    var a, z :| PartsAt(Merges, t, r, j, q, a, z);
    assert a + [] == a && z + [] == z;
    MergedAlone(Seen(Merges, t.agg, j)[|q.base|..], q.early, []);
  }

  lemma OtherLeft(s: System, acts: seq<Action>, t: System, traces: seq<seq<Event>>, r: nat, i: nat, early: seq<Event>,
                  rest: seq<Event>, j: nat)
    requires LastList(s, traces, r, i, early, rest) && Runs(s, acts, t) && Finished(t, traces)
    requires j < |traces| && j != r && t.jobs[r].todo == []
    ensures s.agg.merged <= t.agg.merged
    ensures Picks(Merges, t.agg.merged[|s.agg.merged|..], j) == if j == i then early else []
  {
    var q := Parts(Seen(Merges, s.agg, j), if j == i then early else [], []);
    OtherLate(s, traces, r, i, early, rest, j);
    LateRun(Merges, s, acts, t, traces, r, j, q);
    assert Carried(Merges, [], j) == [];
    ReplayedAll(t, r, j, q);
    MergedGrows(s, acts, t);
    MergedSince(s, t, j, q.early);
  }

  /** So under an id that group i lists there and goroutine r does not list later, group i's item stays. */
  lemma LastStays(s: System, acts: seq<Action>, t: System, traces: seq<seq<Event>>, r: nat, i: nat, early: seq<Event>,
                  rest: seq<Event>, id: string)
    requires LastList(s, traces, r, i, early, rest) && Runs(s, acts, t) && Finished(t, traces) && t.jobs[r].todo == []
    requires TurnTasks(traces, t.agg.merged) && id in Table(early) && id !in Table(rest)
    ensures id in Table(t.agg.merged) && Table(t.agg.merged)[id] == Table(early)[id]
  {
    MergedGrows(s, acts, t);
    var since := t.agg.merged[|s.agg.merged|..];
    assert t.agg.merged == s.agg.merged + since;
    OtherLeft(s, acts, t, traces, r, i, early, rest, i);
    assert id in Table(since) by {
      if id !in Table(since) {
        NotListed(since, id, i);
      }
    }
    var g := LastGroup(traces, since, id);
    if g == r {
      OwnLeft(s, acts, t, traces, r, i, early, rest);
      assert false;
    } else {
      OtherLeft(s, acts, t, traces, r, i, early, rest, g);
    }
    TableAppend(s.agg.merged, since, id);
  }

  // ----- the whole run -----

  /** The replay that group i's list ends. */
  lemma OpeningEnd(mid: System, traces: seq<seq<Event>>, r: nat, order: seq<nat>, c: Choice, i: nat)
    returns (x: seq<Op>)
    requires Before(mid, traces) && Opens(mid, r, c) && c.order == order + [i] && i < |traces| && i != r
    ensures |Next(mid, Exec(r, c)).jobs| == |mid.agg.perJob| == |traces|
    ensures Next(mid, Exec(r, c)).jobs[r].todo == x + ReplayJob(i, mid.agg.perJob[i].initBuffer)
  {
    var ev := OpeningCall(mid, traces, r, c);
    ExecOnly(mid, r, c, Buffer(ev));
    x := GateEnd(mid.agg, r, ev, order, i);
  }

  lemma OpenerRest(mid: System, traces: seq<seq<Event>>, launched: nat, prog: seq<nat>, r: nat, c: Choice)
    requires Fires(traces, launched, prog, r) && AtOpening(mid, traces, launched, prog, r, c)
    ensures |Next(mid, Exec(r, c)).jobs| == |traces|
    ensures Picks(Merges, Next(mid, Exec(r, c)).jobs[r].rest, r) == TasksBehind(traces, prog, r)
  {
    PlanParts(Merges, mid, traces, launched, prog, r, c, r);
    OpensReplay(Merges, mid, traces, r, c, r);
    assert [] + Picks(Merges, mid.jobs[r].rest, r) == Picks(Merges, mid.jobs[r].rest, r);
  }

  lemma ListCarries(mid: System, traces: seq<seq<Event>>, launched: nat, prog: seq<nat>, r: nat, c: Choice, i: nat,
                    j: nat)
    requires Fires(traces, launched, prog, r) && AtOpening(mid, traces, launched, prog, r, c)
    requires i < |traces| == |mid.agg.perJob| && j < |traces|
    ensures Carried(Merges, ReplayJob(i, mid.agg.perJob[i].initBuffer), j)
         == if j == i then TasksBefore(traces, prog, i) else []
  {
    OwnersKnown(mid, traces);
    ReplayJobsCarry(Merges, mid.agg.perJob, i, j);
    PlanParts(Merges, mid, traces, launched, prog, r, c, i);
  }

  /** Goroutine r has opened phase 2, with x to replay before group i's list y. */
  ghost predicate Ends(t: System, traces: seq<seq<Event>>, prog: seq<nat>, r: nat, i: nat, x: seq<Op>, y: seq<Op>)
    requires Extent(traces, prog) && r < |traces| && i < |traces|
  {
    && Late(t, traces) && t.jobs[r].todo == x + y
    && Picks(Merges, t.jobs[r].rest, r) == TasksBehind(traces, prog, r)
    && forall j | 0 <= j < |traces| :: Carried(Merges, y, j) == if j == i then TasksBefore(traces, prog, i) else []
  }

  lemma OpensIntoLate(mid: System, traces: seq<seq<Event>>, r: nat, c: Choice)
    requires Before(mid, traces) && Opens(mid, r, c) && Tasks(mid) && OneEach(mid)
    ensures Late(Next(mid, Exec(r, c)), traces)
  {
    NextGood(mid, Exec(r, c), traces);
    NextTasks(mid, Exec(r, c), traces);
    ExecPends(mid, traces, r, c);
  }

  lemma OpensEnd(mid: System, traces: seq<seq<Event>>, launched: nat, prog: seq<nat>, r: nat, order: seq<nat>,
                 c: Choice, i: nat)
    returns (x: seq<Op>, y: seq<Op>)
    requires Fires(traces, launched, prog, r) && AtOpening(mid, traces, launched, prog, r, c)
    requires Tasks(mid) && OneEach(mid) && i < |traces| && i != r && c.order == order + [i]
    ensures Ends(Next(mid, Exec(r, c)), traces, prog, r, i, x, y)
  {
    OpensIntoLate(mid, traces, r, c);
    x := OpeningEnd(mid, traces, r, order, c, i);
    y := ReplayJob(i, mid.agg.perJob[i].initBuffer);
    OpenerRest(mid, traces, launched, prog, r, c);
    forall j | 0 <= j < |traces|
      ensures Carried(Merges, y, j) == if j == i then TasksBefore(traces, prog, i) else []
    {
      ListCarries(mid, traces, launched, prog, r, c, i, j);
    }
  }

  lemma ReachEnds(traces: seq<seq<Event>>, launched: nat, prog: seq<nat>, r: nat, i: nat)
    returns (acts: seq<Action>, t: System, x: seq<Op>, y: seq<Op>)
    requires Fires(traces, launched, prog, r) && i < |traces| && i != r
    ensures Runs(Init(traces), acts, t) && Ends(t, traces, prog, r, i, x, y)
  {
    var order := Range(|traces|)[..i] + Range(|traces|)[i + 1..];
    var c := Choice(EndsWith(|traces|, i), []);
    EndsWithValid(|traces|, i);
    var a1, mid := ReachOpening(traces, launched, prog, r, c);
    RunsOne(Init(traces), a1, mid, Exec(r, c));
    acts, t := a1 + [Exec(r, c)], Next(mid, Exec(r, c));
    InitGood(traces);
    RunTasks(Init(traces), a1, mid, traces);
    RunShows(Init(traces), a1, mid, traces);
    x, y := OpensEnd(mid, traces, launched, prog, r, order, c, i);
  }

  lemma OthersDone(s: System, r: nat)
    requires Lifecycle(s) && Rest(s, {r})
    ensures forall j | 0 <= j < |s.jobs| && j != r :: s.jobs[j].todo == [] && s.jobs[j].rest == []
  {
    forall j | 0 <= j < |s.jobs| && j != r ensures s.jobs[j].todo == [] && s.jobs[j].rest == [] {
      assert ControlOk(s.jobs[j]);
    }
  }

  lemma LastListAt(s: System, t: System, traces: seq<seq<Event>>, r: nat, i: nat, y: seq<Op>, early: seq<Event>)
    requires Lifecycle(s) && Rest(s, {r}) && Replaying(t, traces, r) && |s.jobs| == |traces| && i < |traces| && i != r
    requires t.jobs == s.jobs[r := s.jobs[r].(todo := y)]
    requires forall j | 0 <= j < |traces| :: Carried(Merges, y, j) == if j == i then early else []
    ensures LastList(t, traces, r, i, early, Picks(Merges, s.jobs[r].rest, r))
  {
    OthersDone(s, r);
  }

  lemma OthersEnd(s: System, traces: seq<seq<Event>>, r: nat) returns (acts: seq<Action>, t: System)
    requires Late(s, traces) && r < |s.jobs|
    ensures Runs(s, acts, t) && Replaying(t, traces, r) && Lifecycle(t) && Rest(t, {r})
    ensures t.jobs[r].todo == s.jobs[r].todo && t.jobs[r].rest == s.jobs[r].rest
  {
    acts, t := FinishBeside(s, traces, {r});
    assert r in {r};
  }

  /** From there the other groups come to their end, and goroutine r to the last list. */
  lemma FromEnds(s: System, traces: seq<seq<Event>>, prog: seq<nat>, r: nat, i: nat, x: seq<Op>, y: seq<Op>)
    returns (acts: seq<Action>, t: System)
    requires Extent(traces, prog) && r < |traces| && i < |traces| && i != r && Ends(s, traces, prog, r, i, x, y)
    ensures Runs(s, acts, t)
    ensures LastList(t, traces, r, i, TasksBefore(traces, prog, i), TasksBehind(traces, prog, r))
  {
    var a1, s1 := OthersEnd(s, traces, r);
    var a2, s2 := RunDown(s1, traces, r, x, y);
    RunsAppend(s, a1, s1, a2, s2);
    acts, t := a1 + a2, s2;
    LastListAt(s1, t, traces, r, i, y, TasksBefore(traces, prog, i));
  }

  lemma ReachLastList(traces: seq<seq<Event>>, launched: nat, prog: seq<nat>, r: nat, i: nat)
    returns (acts: seq<Action>, t: System)
    requires Fires(traces, launched, prog, r) && i < |traces| && i != r
    ensures Runs(Init(traces), acts, t)
    ensures LastList(t, traces, r, i, TasksBefore(traces, prog, i), TasksBehind(traces, prog, r))
  {
    var a1, s1, x, y := ReachEnds(traces, launched, prog, r, i);
    var a2, s2 := FromEnds(s1, traces, prog, r, i, x, y);
    RunsAppend(Init(traces), a1, s1, a2, s2);
    acts, t := a1 + a2, s2;
  }

  lemma AtTheEnd(traces: seq<seq<Event>>, acts: seq<Action>, t: System, r: nat)
    requires Runs(Init(traces), acts, t) && t.main.Merged? && r < |traces|
    ensures Finished(t, traces) && t.jobs[r].todo == []
    ensures TurnTasks(traces, t.agg.merged) && t.agg.tasks == Table(t.agg.merged)
  {
    InitGood(traces);
    RunTasks(Init(traces), acts, t, traces);
    AllSent(Merges, traces, acts, t, r);
    AllFinished(traces, acts, t);
    MergedTasks(traces, acts, t);
    TaskTable(traces, acts, t);
  }

  /** Where it can, the table does go stale. */
  lemma GoStale(traces: seq<seq<Event>>, launched: nat, prog: seq<nat>, r: nat, i: nat, id: string)
    returns (acts: seq<Action>, t: System)
    requires Stale(traces, launched, prog, r, i, id)
    ensures Runs(Init(traces), acts, t) && t.main.Merged?
    ensures id in t.agg.tasks && !LastOfSome(traces, id, t.agg.tasks[id])
  {
    var a1, s := ReachLastList(traces, launched, prog, r, i);
    var a2, end := CanFinish(s, traces);
    RunsAppend(Init(traces), a1, s, a2, end);
    acts, t := a1 + a2, end;
    AtTheEnd(traces, acts, t, r);
    LastStays(s, a2, t, traces, r, i, TasksBefore(traces, prog, i), TasksBehind(traces, prog, r), id);
  }

  /** In every complete run the table has, under every id in it, an item that some group sent last. */
  ghost predicate AlwaysLatest(traces: seq<seq<Event>>) {
    forall acts: seq<Action>, t: System, id: string
      | Runs(Init(traces), acts, t) && t.main.Merged? && id in t.agg.tasks :: LastOfSome(traces, id, t.agg.tasks[id])
  }

  /**
   For every fan-out: no run leaves an overwritten item in the table iff phase 2 can never open between two items of a
   group under one id, the earlier of which no group sends last, from a group that lists the id no more.
   */
  lemma LatestExactly(traces: seq<seq<Event>>)
    ensures AlwaysLatest(traces) <==> !CanGoStale(traces)
  {
    if CanGoStale(traces) {
      var launched: nat, prog: seq<nat>, r: nat, i: nat, id: string :| Stale(traces, launched, prog, r, i, id);
      RiskTaken(traces, launched, prog, r, i, id);
    } else {
      forall acts: seq<Action>, t: System, id: string
        | Runs(Init(traces), acts, t) && t.main.Merged? && id in t.agg.tasks
        ensures LastOfSome(traces, id, t.agg.tasks[id])
      {
        if !LastOfSome(traces, id, t.agg.tasks[id]) {
          FindStale(traces, acts, t, id);
        }
      }
    }
  }

  lemma RiskTaken(traces: seq<seq<Event>>, launched: nat, prog: seq<nat>, r: nat, i: nat, id: string)
    requires Stale(traces, launched, prog, r, i, id)
    ensures !AlwaysLatest(traces)
  {
    var acts, t := GoStale(traces, launched, prog, r, i, id);
  }

  // ----- at its smallest -----

  function Task(kind: Kind, body: string): Event { Event(kind, Outer, "", [Item("x", body)], "") }

  /** A group creates a task, is ready, and updates the task. */
  function Updating(): seq<Event> {
    [Task(TaskCreate, "old"), Event(Ready, Outer, "", [], ""), Task(TaskUpdate, "new")]
  }

  function Idle(): seq<Event> { [Event(Ready, Outer, "", [], "")] }

  lemma UpdatingFires()
    ensures Fires([Updating(), Idle()], 2, [2, 0], 1)
  {
    var traces := [Updating(), Idle()];
    var prog: seq<nat> := [2, 0];
    var sent := Stamp(0, traces[0]);
    assert sent[..2] == [sent[0], sent[1]] && Stamp(1, traces[1])[..0] == [];
    SumSmall(IsReady(), sent[0], sent[1]);
    assert CountedBy(traces, prog, 1) == 1 && CountedBy(traces, prog, 2) == 1;
  }

  lemma OneTask(ev: Event)
    requires |ev.items| == 1
    ensures Table([ev]) == map[ev.items[0].id := ev.items[0]]
  {
    assert [ev][..0] == [] && Items([ev]) == ev.items && ev.items[1..] == [];
    assert MergeItems(map[][ev.items[0].id := ev.items[0]], ev.items[1..]) == map[ev.items[0].id := ev.items[0]];
  }

  lemma UpdatingTables()
    ensures var traces, prog := [Updating(), Idle()], [2, 0];
      && Table(TasksBefore(traces, prog, 0)) == map["x" := Item("x", "old")]
      && Table(TasksBehind(traces, prog, 0)) == map["x" := Item("x", "new")]
      && TasksBehind(traces, prog, 1) == []
      && SentTasks(traces, 1) == []
  {
    var sent := Stamp(0, Updating());
    assert sent[..2] == [sent[0]] + [sent[1]] && sent[2..] == [sent[2]];
    PicksAppend(Merges, [sent[0]], [sent[1]], 0);
    PicksOne(Merges, sent[0], 0);
    PicksOne(Merges, sent[1], 0);
    PicksOne(Merges, sent[2], 0);
    OneTask(sent[0]);
    OneTask(sent[2]);
    NoPicks(Merges, Stamp(1, Idle()), 1);
    assert Stamp(1, Idle())[0..] == Stamp(1, Idle());
  }

  lemma NeitherLast()
    ensures !LastOfSome([Updating(), Idle()], "x", Item("x", "old"))
  {
    var traces, prog := [Updating(), Idle()], [2, 0];
    UpdatingTables();
    SentInTwo(traces, prog, 0);
    TableAppend(TasksBefore(traces, prog, 0), TasksBehind(traces, prog, 0), "x");
    assert !LastOf(traces, 0, "x", Item("x", "old")) && !LastOf(traces, 1, "x", Item("x", "old"));
  }

  lemma UpdatingStale()
    ensures Stale([Updating(), Idle()], 2, [2, 0], 1, 0, "x")
  {
    UpdatingFires();
    UpdatingTables();
    NeitherLast();
  }

  /** Beside one that only gets ready, its update can be undone. */
  lemma OlderItemStays()
    ensures !AlwaysLatest([Updating(), Idle()])
  {
    UpdatingStale();
    RiskTaken([Updating(), Idle()], 2, [2, 0], 1, 0, "x");
  }
}

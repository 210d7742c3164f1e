/**
 Latest wins, for the turns and not only for the table: whether the task table ends with the
 item some group sent last under each id. A replayed list can overwrite a newer one of its
 group that was merged live before; this module says for which turns that can happen.
 */
module FanoutLatest {
  import opened AggregatorSpec
  import opened Fanout
  import opened FanoutDelivery
  import opened FanoutResults
  import opened FanoutTasks
  import opened FanoutMerges
  import opened FanoutOrder
  import opened FanoutReplay
  import opened FanoutBacklog
  import opened FanoutInOrder
  import opened FanoutPlans
  import opened FanoutOpening

  // ----- the table a list of task events leaves -----

  function Table(evs: seq<Event>): map<string, Item> { MergeItems(map[], Items(evs)) }

  lemma {:induction false} ItemsAppend(a: seq<Event>, b: seq<Event>)
    ensures Items(a + b) == Items(a) + Items(b)
  {
    if b == [] {
      assert a + b == a && Items(a) + [] == Items(a);
    } else {
      var n := |b| - 1;
      assert (a + b)[..|a + b| - 1] == a + b[..n];
      ItemsAppend(a, b[..n]);
    }
  }

  lemma {:induction false} MergeLookup(tasks: map<string, Item>, items: seq<Item>, id: string)
    ensures id in MergeItems(tasks, items) <==> id in tasks || id in MergeItems(map[], items)
    ensures id in MergeItems(map[], items) ==> MergeItems(tasks, items)[id] == MergeItems(map[], items)[id]
    ensures id in tasks && id !in MergeItems(map[], items) ==> MergeItems(tasks, items)[id] == tasks[id]
    decreases items
  {
    if items != [] {
      MergeLookup(tasks[items[0].id := items[0]], items[1..], id);
      MergeLookup(map[items[0].id := items[0]], items[1..], id);
      assert map[][items[0].id := items[0]] == map[items[0].id := items[0]];
    }
  }

  /** A later item wins, an earlier one stays. */
  lemma TableAppend(a: seq<Event>, b: seq<Event>, id: string)
    ensures id in Table(a + b) <==> id in Table(a) || id in Table(b)
    ensures id in Table(b) ==> Table(a + b)[id] == Table(b)[id]
    ensures id in Table(a) && id !in Table(b) ==> Table(a + b)[id] == Table(a)[id]
  {
    ItemsAppend(a, b);
    MergeAppend(map[], Items(a), Items(b));
    MergeLookup(Table(a), Items(b), id);
  }

  /** The last event that lists the id decides. */
  lemma {:induction false} LastWith(evs: seq<Event>, id: string) returns (p: nat)
    requires id in Table(evs)
    ensures p < |evs| && id in Table([evs[p]]) && Table([evs[p]])[id] == Table(evs)[id]
    ensures id !in Table(evs[p + 1..])
  {
    var n := |evs| - 1;
    assert evs == evs[..n] + [evs[n]];
    TableAppend(evs[..n], [evs[n]], id);
    if id in Table([evs[n]]) {
      p := n;
      assert evs[n + 1..] == [];
    } else {
      p := LastWith(evs[..n], id);
      assert evs[p + 1..] == evs[..n][p + 1..] + [evs[n]];
      TableAppend(evs[..n][p + 1..], [evs[n]], id);
    }
  }

  lemma {:induction false} NotListed(evs: seq<Event>, id: string, g: nat)
    requires id !in Table(evs)
    ensures id !in Table(Picks(Merges, evs, g))
    decreases |evs|
  {
    if evs != [] {
      assert evs == [evs[0]] + evs[1..];
      TableAppend([evs[0]], evs[1..], id);
      NotListed(evs[1..], id, g);
      TableAppend(if evs[0].source == Job(g) then Shown(Merges, evs[0]) else [], Picks(Merges, evs[1..], g), id);
    }
  }

  /** The group that sent the deciding event. */
  lemma DecidedBy(evs: seq<Event>, id: string, p: nat, g: nat)
    requires p < |evs| && id in Table([evs[p]]) && id !in Table(evs[p + 1..])
    requires evs[p].source == Job(g) && evs[p].kind.Task()
    ensures id in Table(evs) && Table(evs)[id] == Table([evs[p]])[id]
    ensures id in Table(Picks(Merges, evs, g)) && Table(Picks(Merges, evs, g))[id] == Table([evs[p]])[id]
  {
    var low, e, high := evs[..p], evs[p], evs[p + 1..];
    assert evs == (low + [e]) + high;
    TableAppend(low, [e], id);
    TableAppend(low + [e], high, id);
    PicksAppend(Merges, low + [e], high, g);
    PicksAppend(Merges, low, [e], g);
    PicksOne(Merges, e, g);
    NotListed(high, id, g);
    TableAppend(Picks(Merges, low, g), [e], id);
    TableAppend(Picks(Merges, low + [e], g), Picks(Merges, high, g), id);
  }

  /** Of an interleaving the last item is the last of one of the parts. */
  lemma {:induction false} ShuffleLast(l: seq<Event>, a: seq<Event>, z: seq<Event>, id: string)
    requires Shuffle(l, a, z) && id in Table(l)
    ensures (id in Table(a) && Table(a)[id] == Table(l)[id]) || (id in Table(z) && Table(z)[id] == Table(l)[id])
    decreases |l|
  {
    var n := |l| - 1;
    assert l == l[..n] + [l[n]];
    TableAppend(l[..n], [l[n]], id);
    if a != [] && a[|a| - 1] == l[n] && Shuffle(l[..n], a[..|a| - 1], z) {
      assert a == a[..|a| - 1] + [l[n]];
      TableAppend(a[..|a| - 1], [l[n]], id);
      if id !in Table([l[n]]) {
        ShuffleLast(l[..n], a[..|a| - 1], z, id);
      }
    } else {
      assert z == z[..|z| - 1] + [l[n]];
      TableAppend(z[..|z| - 1], [l[n]], id);
      if id !in Table([l[n]]) {
        ShuffleLast(l[..n], a, z[..|z| - 1], id);
      }
    }
  }

  // ----- the condition -----

  /** The task events group g sends, and those before and behind its place in a plan. */
  function SentTasks(traces: seq<seq<Event>>, g: nat): seq<Event>
    requires g < |traces|
  {
    Picks(Merges, Stamp(g, traces[g]), g)
  }

  function TasksBefore(traces: seq<seq<Event>>, prog: seq<nat>, g: nat): seq<Event>
    requires g < |traces| == |prog| && prog[g] <= |traces[g]|
  {
    Picks(Merges, Stamp(g, traces[g])[..prog[g]], g)
  }

  function TasksBehind(traces: seq<seq<Event>>, prog: seq<nat>, g: nat): seq<Event>
    requires g < |traces| == |prog| && prog[g] <= |traces[g]|
  {
    Picks(Merges, Stamp(g, traces[g])[prog[g]..], g)
  }

  lemma SentInTwo(traces: seq<seq<Event>>, prog: seq<nat>, g: nat)
    requires g < |traces| == |prog| && prog[g] <= |traces[g]|
    ensures SentTasks(traces, g) == TasksBefore(traces, prog, g) + TasksBehind(traces, prog, g)
  {
    var trace := Stamp(g, traces[g]);
    assert trace == trace[..prog[g]] + trace[prog[g]..];
    PicksAppend(Merges, trace[..prog[g]], trace[prog[g]..], g);
  }

  /** The item is the last some group sends under the id. */
  ghost predicate LastOfSome(traces: seq<seq<Event>>, id: string, item: Item) {
    exists g | 0 <= g < |traces| :: LastOf(traces, g, id, item)
  }

  ghost predicate LastOf(traces: seq<seq<Event>>, g: nat, id: string, item: Item)
    requires g < |traces|
  {
    id in Table(SentTasks(traces, g)) && Table(SentTasks(traces, g))[id] == item
  }

  /**
   Phase 2 can open from group r while group i has sent an item under the id and will send another; the older one is no
   group's last, and group r, which replays it, sends none itself afterwards.
   */
  ghost predicate Stale(traces: seq<seq<Event>>, launched: nat, prog: seq<nat>, r: nat, i: nat, id: string) {
    && Fires(traces, launched, prog, r) && i < |traces| && i != r
    && id in Table(TasksBefore(traces, prog, i)) && id in Table(TasksBehind(traces, prog, i))
    && !LastOfSome(traces, id, Table(TasksBefore(traces, prog, i))[id])
    && id !in Table(TasksBehind(traces, prog, r))
  }

  ghost predicate CanGoStale(traces: seq<seq<Event>>) {
    exists launched: nat, prog: seq<nat>, r: nat, i: nat, id: string :: Stale(traces, launched, prog, r, i, id)
  }

  // ----- a stale table needs it -----

  /** The steps up to goroutine r's first sink call of its own after the replay. */
  lemma {:induction false} FirstCall(s: System, acts: seq<Action>, t: System, r: nat) returns (k: nat, m: System)
    requires Runs(s, acts, t) && r < |s.jobs| && r < |t.jobs| && t.jobs[r].rest != s.jobs[r].rest
    ensures k <= |acts| && Runs(s, acts[..k], m) && Runs(m, acts[k..], t)
    ensures |m.jobs| == |s.jobs| && m.jobs[r].rest == s.jobs[r].rest && m.jobs[r].todo == []
    decreases acts
  {
    if acts[0] == Call(r) {
      k, m := 0, s;
      assert acts[..0] == [] && acts[0..] == acts;
    } else {
      RestKept(s, acts[0], r);
      var k1, m1 := FirstCall(Next(s, acts[0]), acts[1..], t, r);
      k, m := k1 + 1, m1;
      assert acts[..k][0] == acts[0] && acts[..k][1..] == acts[1..][..k1] && acts[k..] == acts[1..][k1..];
    }
  }

  lemma RestKept(s: System, act: Action, r: nat)
    requires Enabled(s, act) && |s.agg.perJob| == |s.jobs| && r < |s.jobs| && act != Call(r)
    ensures |Next(s, act).jobs| == |s.jobs| && Next(s, act).jobs[r].rest == s.jobs[r].rest
  {
  }

  /** When only its own goroutine carries a job's events, what is seen of them later is exactly what it carries. */
  lemma OnlyOwn(s: System, acts: seq<Action>, t: System, traces: seq<seq<Event>>, g: nat)
    requires Good(s, traces) && s.agg.readyEmitted && Runs(s, acts, t) && g < |s.jobs| && OnlyTwoCarry(Merges, s, g, g)
    ensures |t.jobs| == |s.jobs|
    ensures Seen(Merges, t.agg, g) + Live(Merges, t.jobs[g], g) == Seen(Merges, s.agg, g) + Live(Merges, s.jobs[g], g)
  {
    var q := Parts([], Seen(Merges, s.agg, g), Live(Merges, s.jobs[g], g));
    assert [] + q.early == q.early;
    LateRun(Merges, s, acts, t, traces, g, g, q);
  }

  /** What is merged of a job from s to t. */
  lemma MergedSince(s: System, t: System, g: nat, more: seq<Event>)
    requires s.agg.merged <= t.agg.merged && Seen(Merges, t.agg, g) == Seen(Merges, s.agg, g) + more
    ensures Picks(Merges, t.agg.merged[|s.agg.merged|..], g) == more
  {
    var since := t.agg.merged[|s.agg.merged|..];
    assert t.agg.merged == s.agg.merged + since;
    PicksAppend(Merges, s.agg.merged, since, g);
    SameTail(Seen(Merges, s.agg, g), Picks(Merges, since, g), more);
  }

  lemma SameTail(p: seq<Event>, a: seq<Event>, b: seq<Event>)
    requires p + a == p + b
    ensures a == b
  {
    assert a == (p + a)[|p|..] && b == (p + b)[|p|..];
  }

  lemma {:induction false} MergedGrows(s: System, acts: seq<Action>, t: System)
    requires Runs(s, acts, t)
    ensures s.agg.merged <= t.agg.merged
    decreases acts
  {
    if acts != [] {
      SinkGrows(Merges, s, acts[0]);
      MergedGrows(Next(s, acts[0]), acts[1..], t);
    }
  }

  /** A complete run, the step of it that opened phase 2, and the plan it did so by. */
  ghost predicate Opened(traces: seq<seq<Event>>, acts: seq<Action>, t: System, k: nat, mid: System, r: nat, c: Choice,
                         launched: nat, prog: seq<nat>)
  {
    && Runs(Init(traces), acts, t) && t.main.Merged? && OpensIn(Init(traces), acts, t, traces, k, mid, r, c)
    && Fires(traces, launched, prog, r) && |t.jobs| == |mid.jobs| == |traces|
    && forall g | 0 <= g < |traces| :: prog[g] == Handled(mid, traces, g)
  }

  /** What phase 1 had of a group's task events when phase 2 opened, and what it left. */
  lemma CutByPlan(traces: seq<seq<Event>>, acts: seq<Action>, t: System, k: nat, mid: System, r: nat, c: Choice,
                  launched: nat, prog: seq<nat>, g: nat)
    requires Opened(traces, acts, t, k, mid, r, c, launched, prog) && g < |traces|
    ensures PartsOf(Merges, mid, g) == Parts([], TasksBefore(traces, prog, g), TasksBehind(traces, prog, g))
  {
    PartsCut(Merges, mid, traces, g);
    PlainCut(Merges, PartsOf(Merges, mid, g), Stamp(g, traces[g]), g, prog[g], |Seen(Merges, mid.agg, g)|);
  }

  /** A group's merges in a complete run. */
  lemma MergedOf(traces: seq<seq<Event>>, acts: seq<Action>, t: System, k: nat, mid: System, r: nat, c: Choice,
                 launched: nat, prog: seq<nat>, g: nat)
    requires Opened(traces, acts, t, k, mid, r, c, launched, prog) && g < |traces|
    ensures g == r ==> Seen(Merges, t.agg, g) == SentTasks(traces, g)
    ensures g != r ==> Shuffle(Seen(Merges, t.agg, g), TasksBefore(traces, prog, g), TasksBehind(traces, prog, g))
  {
    if g == r {
      OpenerInOrder(Merges, traces, acts, t, k, mid, r, c);
    } else {
      OrderAfterOpening(Merges, traces, acts, t, k, mid, r, c, g);
      CutByPlan(traces, acts, t, k, mid, r, c, launched, prog, g);
      AllSent(Merges, traces, acts, t, g);
      assert Carried(Merges, t.jobs[r].todo, g) == [];
      CompleteLate(Merges, t, r, g, PartsOf(Merges, mid, g));
    }
  }

  lemma LastBehind(traces: seq<seq<Event>>, prog: seq<nat>, g: nat, tail: seq<Event>, id: string, item: Item)
    requires g < |traces| == |prog| && prog[g] <= |traces[g]| && id in Table(tail) && Table(tail)[id] == item
    requires exists z :: z + tail == TasksBehind(traces, prog, g)
    ensures LastOfSome(traces, id, item)
  {
    var z :| z + tail == TasksBehind(traces, prog, g);
    TableAppend(z, tail, id);
    SentInTwo(traces, prog, g);
    TableAppend(TasksBefore(traces, prog, g), TasksBehind(traces, prog, g), id);
    assert LastOf(traces, g, id, item);
  }

  /** A group whose merges hold the deciding item, which is no group's last, sent another of that id behind the cut. */
  lemma Overwritten(traces: seq<seq<Event>>, prog: seq<nat>, g: nat, merges: seq<Event>, id: string)
    requires g < |traces| == |prog| && prog[g] <= |traces[g]|
    requires Shuffle(merges, TasksBefore(traces, prog, g), TasksBehind(traces, prog, g))
    requires id in Table(merges) && !LastOfSome(traces, id, Table(merges)[id])
    ensures id in Table(TasksBefore(traces, prog, g)) && Table(TasksBefore(traces, prog, g))[id] == Table(merges)[id]
    ensures id in Table(TasksBehind(traces, prog, g))
  {
    var a, z, item := TasksBefore(traces, prog, g), TasksBehind(traces, prog, g), Table(merges)[id];
    assert !LastOf(traces, g, id, item);
    SentInTwo(traces, prog, g);
    TableAppend(a, z, id);
    ShuffleLast(merges, a, z, id);
  }

  /** After m goroutine r replays no more: what is still to be merged is sent by the groups' own goroutines. */
  ghost predicate Replayed(traces: seq<seq<Event>>, prog: seq<nat>, m: System, acts: seq<Action>, t: System, r: nat) {
    && Good(m, traces) && m.agg.readyEmitted && Runs(m, acts, t)
    && Extent(traces, prog) && r < |traces| == |m.jobs|
    && m.jobs[r].todo == [] && Picks(Merges, m.jobs[r].rest, r) == TasksBehind(traces, prog, r)
    && forall g | 0 <= g < |traces| ::
         LateAt(Merges, m, r, g, Parts([], TasksBefore(traces, prog, g), TasksBehind(traces, prog, g)))
  }

  lemma OpenerFree(traces: seq<seq<Event>>, acts: seq<Action>, t: System, k: nat, mid: System, r: nat, c: Choice,
                   launched: nat, prog: seq<nat>)
    requires Opened(traces, acts, t, k, mid, r, c, launched, prog)
    ensures |Next(mid, Exec(r, c)).jobs| == |traces| && r < |traces|
    ensures Picks(Merges, Next(mid, Exec(r, c)).jobs[r].rest, r) == TasksBehind(traces, prog, r)
  {
    CutByPlan(traces, acts, t, k, mid, r, c, launched, prog, r);
    OpensReplay(Merges, mid, traces, r, c, r);
    assert [] + Picks(Merges, mid.jobs[r].rest, r) == Picks(Merges, mid.jobs[r].rest, r);
  }

  /** If the opening group has task events behind the cut, some state of the run is of that kind. */
  lemma FindReplayed(traces: seq<seq<Event>>, acts: seq<Action>, t: System, k: nat, mid: System, r: nat, c: Choice,
                     launched: nat, prog: seq<nat>) returns (more: seq<Action>, m: System)
    requires Opened(traces, acts, t, k, mid, r, c, launched, prog) && TasksBehind(traces, prog, r) != []
    ensures Replayed(traces, prog, m, more, t, r)
  {
    var s, later := Next(mid, Exec(r, c)), acts[k + 1..];
    OpenerFree(traces, acts, t, k, mid, r, c, launched, prog);
    AllSent(Merges, traces, acts, t, r);
    var n;
    n, m := FirstCall(s, later, t, r);
    more := later[n..];
    InitGood(traces);
    RunTasks(Init(traces), acts[..k], mid, traces);
    NextGood(mid, Exec(r, c), traces);
    NextTasks(mid, Exec(r, c), traces);
    RunTasks(s, later[..n], m, traces);
    ReadyForGood(s, later[..n], m);
    forall g | 0 <= g < |traces|
      ensures LateAt(Merges, m, r, g, Parts([], TasksBefore(traces, prog, g), TasksBehind(traces, prog, g)))
    {
      CutByPlan(traces, acts, t, k, mid, r, c, launched, prog, g);
      OpensLate(Merges, mid, traces, r, c, g);
      LateRun(Merges, s, later[..n], m, traces, r, g, PartsOf(Merges, mid, g));
    }
  }

  /** With goroutine r's replay done a group's own goroutine carries alone, and the end of what is behind the cut. */
  lemma TailAt(m: System, r: nat, g: nat, q: Parts)
    requires g < |m.jobs| && r < |m.jobs| && LateAt(Merges, m, r, g, q) && m.jobs[r].todo == []
    requires g == r ==> Picks(Merges, m.jobs[r].rest, r) == q.late
    ensures OnlyTwoCarry(Merges, m, g, g)
    ensures g == r ==> Live(Merges, m.jobs[g], g) == q.late
    ensures exists z :: z + Live(Merges, m.jobs[g], g) == q.late
  {
    assert Carried(Merges, [], g) == [];
    if g == r {
      assert [] + q.late == q.late;
    } else {
      var a, z :| PartsAt(Merges, m, r, g, q, a, z);
      assert z + Live(Merges, m.jobs[g], g) == q.late;
    }
  }

  /** What a group merges from m on is what its own goroutine carries there. */
  lemma MergesLive(m: System, acts: seq<Action>, t: System, traces: seq<seq<Event>>, g: nat)
    requires Good(m, traces) && m.agg.readyEmitted && Runs(m, acts, t) && g < |m.jobs| && OnlyTwoCarry(Merges, m, g, g)
    requires g < |t.jobs| && Live(Merges, t.jobs[g], g) == []
    ensures m.agg.merged <= t.agg.merged
    ensures Picks(Merges, t.agg.merged[|m.agg.merged|..], g) == Live(Merges, m.jobs[g], g)
  {
    MergedGrows(m, acts, t);
    OnlyOwn(m, acts, t, traces, g);
    assert Seen(Merges, t.agg, g) + [] == Seen(Merges, t.agg, g);
    MergedSince(m, t, g, Live(Merges, m.jobs[g], g));
  }

  lemma TailFrom(traces: seq<seq<Event>>, prog: seq<nat>, m: System, acts: seq<Action>, t: System, r: nat, g: nat)
    requires Replayed(traces, prog, m, acts, t, r) && g < |traces| == |t.jobs| && Live(Merges, t.jobs[g], g) == []
    ensures m.agg.merged <= t.agg.merged
    ensures Picks(Merges, t.agg.merged[|m.agg.merged|..], g) == Live(Merges, m.jobs[g], g)
    ensures g == r ==> Live(Merges, m.jobs[g], g) == TasksBehind(traces, prog, r)
    ensures exists z :: z + Live(Merges, m.jobs[g], g) == TasksBehind(traces, prog, g)
  {
    TailAt(m, r, g, Parts([], TasksBefore(traces, prog, g), TasksBehind(traces, prog, g)));
    MergesLive(m, acts, t, traces, g);
  }

  ghost predicate TurnTasks(traces: seq<seq<Event>>, evs: seq<Event>) {
    forall ev | ev in evs :: ev.kind.Task() && ev.source.Job? && ev.source.index < |traces|
  }

  lemma MergedTasks(traces: seq<seq<Event>>, acts: seq<Action>, t: System)
    requires Runs(Init(traces), acts, t) && t.main.Merged? && traces != []
    ensures TurnTasks(traces, t.agg.merged)
  {
    forall ev | ev in t.agg.merged ensures ev.kind.Task() && ev.source.Job? && ev.source.index < |traces| {
      EveryTaskMergedOnce(traces, acts, t, ev);
    }
  }

  /** The group whose item is left under an id. */
  lemma LastGroup(traces: seq<seq<Event>>, evs: seq<Event>, id: string) returns (g: nat)
    requires TurnTasks(traces, evs) && id in Table(evs)
    ensures g < |traces| && id in Table(Picks(Merges, evs, g))
    ensures Table(Picks(Merges, evs, g))[id] == Table(evs)[id]
  {
    var p := LastWith(evs, id);
    assert evs[p] in evs;
    g := evs[p].source.index;
    DecidedBy(evs, id, p, g);
  }

  ghost predicate Finished(t: System, traces: seq<seq<Event>>) {
    |t.jobs| == |traces| && forall g | 0 <= g < |traces| :: Live(Merges, t.jobs[g], g) == []
  }

  /** If goroutine r lists the id after its replay, the group whose item is left does so too. */
  lemma SinceReplay(traces: seq<seq<Event>>, prog: seq<nat>, m: System, acts: seq<Action>, t: System, r: nat,
                    since: seq<Event>, id: string)
    requires Replayed(traces, prog, m, acts, t, r) && Finished(t, traces) && id in Table(TasksBehind(traces, prog, r))
    requires m.agg.merged <= t.agg.merged && since == t.agg.merged[|m.agg.merged|..] && TurnTasks(traces, since)
    ensures id in Table(since) && LastOfSome(traces, id, Table(since)[id])
  {
    TailFrom(traces, prog, m, acts, t, r, r);
    assert id in Table(since) by {
      if id !in Table(since) {
        NotListed(since, id, r);
      }
    }
    var g := LastGroup(traces, since, id);
    TailFrom(traces, prog, m, acts, t, r, g);
    LastBehind(traces, prog, g, Live(Merges, m.jobs[g], g), id, Table(since)[id]);
  }

  lemma AllFinished(traces: seq<seq<Event>>, acts: seq<Action>, t: System)
    requires Runs(Init(traces), acts, t) && t.main.Merged? && |t.jobs| == |traces|
    ensures Finished(t, traces)
  {
    forall g | 0 <= g < |traces| ensures Live(Merges, t.jobs[g], g) == [] {
      AllSent(Merges, traces, acts, t, g);
    }
  }

  lemma ReplayedLast(traces: seq<seq<Event>>, prog: seq<nat>, m: System, acts: seq<Action>, t: System, r: nat,
                     id: string)
    requires Replayed(traces, prog, m, acts, t, r) && Finished(t, traces) && id in Table(TasksBehind(traces, prog, r))
    requires TurnTasks(traces, t.agg.merged)
    ensures id in Table(t.agg.merged) && LastOfSome(traces, id, Table(t.agg.merged)[id])
  {
    MergedGrows(m, acts, t);
    var since := t.agg.merged[|m.agg.merged|..];
    assert t.agg.merged == m.agg.merged + since;
    SinceReplay(traces, prog, m, acts, t, r, since, id);
    TableAppend(m.agg.merged, since, id);
  }

  /** What the opening group sends behind the cut it merges after the replay, so such an id ends with a last item. */
  lemma OpenerLast(traces: seq<seq<Event>>, acts: seq<Action>, t: System, k: nat, mid: System, r: nat, c: Choice,
                   launched: nat, prog: seq<nat>, id: string)
    requires Opened(traces, acts, t, k, mid, r, c, launched, prog) && id in Table(TasksBehind(traces, prog, r))
    requires TurnTasks(traces, t.agg.merged)
    ensures id in Table(t.agg.merged) && LastOfSome(traces, id, Table(t.agg.merged)[id])
  {
    var more, m := FindReplayed(traces, acts, t, k, mid, r, c, launched, prog);
    AllFinished(traces, acts, t);
    ReplayedLast(traces, prog, m, more, t, r, id);
  }

  lemma FindOpened(traces: seq<seq<Event>>, acts: seq<Action>, t: System)
    returns (k: nat, mid: System, r: nat, c: Choice, launched: nat, prog: seq<nat>)
    requires Runs(Init(traces), acts, t) && t.main.Merged? && t.agg.readyEmitted
    ensures Opened(traces, acts, t, k, mid, r, c, launched, prog)
  {
    InitBefore(traces);
    k, mid, r, c := FindOpening(Init(traces), acts, t, traces);
    launched, prog := OpenedByPlan(traces, acts, t, k, mid, r, c);
    OrderAfterOpening(Merges, traces, acts, t, k, mid, r, c, r);
  }

  lemma TaskTable(traces: seq<seq<Event>>, acts: seq<Action>, t: System)
    requires Runs(Init(traces), acts, t)
    ensures t.agg.tasks == Table(t.agg.merged)
    ensures t.agg.merged != [] ==> t.agg.readyEmitted
  {
    InitInv(traces);
    InitGood(traces);
    RunTasks(Init(traces), acts, t, traces);
    RunMerges(Init(traces), acts, t, traces, ev => 0);
  }

  /** A complete run whose table has under some id what no group sent last needs turns in which that can happen. */
  lemma FindStale(traces: seq<seq<Event>>, acts: seq<Action>, t: System, id: string)
    requires Runs(Init(traces), acts, t) && t.main.Merged?
    requires id in t.agg.tasks && !LastOfSome(traces, id, t.agg.tasks[id])
    ensures CanGoStale(traces)
  {
    TaskTable(traces, acts, t);
    var k, mid, r, c, launched, prog := FindOpened(traces, acts, t);
    MergedTasks(traces, acts, t);
    var g := LastGroup(traces, t.agg.merged, id);
    MergedOf(traces, acts, t, k, mid, r, c, launched, prog, g);
    assert !LastOf(traces, g, id, t.agg.tasks[id]);
    Overwritten(traces, prog, g, Seen(Merges, t.agg, g), id);
    if id in Table(TasksBehind(traces, prog, r)) {
      OpenerLast(traces, acts, t, k, mid, r, c, launched, prog, id);
    }
    assert Stale(traces, launched, prog, r, g, id);
  }
}
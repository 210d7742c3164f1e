/**
 Phase 2, as far as one job goes: the goroutine that opened it replays what phase 1 kept of
 the job, the job's own sends the rest live. Each of the two delivers its part in order, so
 what arrives interleaves them.
 */
module FanoutReplay {
  import opened AggregatorSpec
  import opened Fanout
  import opened FanoutShape
  import opened FanoutDelivery
  import opened FanoutTools
  import opened FanoutLimits
  import opened FanoutOrder

  /** l interleaves a and z, each in its own order. */
  ghost predicate Shuffle(l: seq<Event>, a: seq<Event>, z: seq<Event>)
    decreases |l|
  {
    if l == [] then a == [] && z == []
    else
      var n := |l| - 1;
      || (a != [] && a[|a| - 1] == l[n] && Shuffle(l[..n], a[..|a| - 1], z))
      || (z != [] && z[|z| - 1] == l[n] && Shuffle(l[..n], a, z[..|z| - 1]))
  }

  lemma ShuffleSnoc(l: seq<Event>, a: seq<Event>, z: seq<Event>, e: Event)
    requires Shuffle(l, a, z)
    ensures Shuffle(l + [e], a + [e], z) && Shuffle(l + [e], a, z + [e])
  {
    assert (l + [e])[..|l|] == l && (a + [e])[..|a|] == a && (z + [e])[..|z|] == z;
  }

  lemma ShuffleMore(l: seq<Event>, a: seq<Event>, z: seq<Event>, more: seq<Event>)
    requires Shuffle(l, a, z) && |more| <= 1
    ensures Shuffle(l + more, a + more, z) && Shuffle(l + more, a, z + more)
  {
    if more == [] {
      assert l + more == l && a + more == a && z + more == z;
    } else {
      assert more == [more[0]];
      ShuffleSnoc(l, a, z, more[0]);
    }
  }

  lemma {:induction false} ShuffleConcat(a: seq<Event>, z: seq<Event>)
    ensures Shuffle(a + z, a, z)
    decreases |a| + |z|
  {
    if z != [] {
      var n := |z| - 1;
      ShuffleConcat(a, z[..n]);
      assert (a + z)[..|a| + n] == a + z[..n];
    } else if a != [] {
      var n := |a| - 1;
      ShuffleConcat(a[..n], []);
      assert a + [] == a && a[..n] + [] == a[..n];
    }
  }

  // ----- one step -----

  /** What job i's own goroutine still carries of it. */
  function Live(ch: Channel, g: Goroutine, i: nat): seq<Event> { Carried(ch, g.todo, i) + Picks(ch, g.rest, i) }

  lemma ForeignRest(ch: Channel, s: System, traces: seq<seq<Event>>, j: nat, i: nat)
    requires Shape(s, traces) && j < |s.jobs| && j != i
    ensures Picks(ch, s.jobs[j].rest, i) == []
  {
    NoPicks(ch, s.jobs[j].rest, i);
  }

  lemma ReadyStays(a: Aggregator, j: nat, op: Op, c: Choice)
    requires j < |a.perJob|
    ensures a.readyEmitted ==> ExecOp(a, j, op, c).0.readyEmitted
  {
  }

  lemma ExecPasses(ch: Channel, s: System, traces: seq<seq<Event>>, j: nat, c: Choice, i: nat)
    requires Good(s, traces) && Enabled(s, Exec(j, c)) && s.agg.readyEmitted
    ensures PassesOn(ch, s.agg, s.jobs[j].todo[0], ExecOp(s.agg, j, s.jobs[j].todo[0], c), i)
  {
    var op := s.jobs[j].todo[0];
    NotClosed(s, j);
    assert OpOk(op, j, traces);
    ExecCarries(ch, s.agg, j, op, c, traces, i);
  }

  lemma LateTodo(ch: Channel, todo: seq<Op>, ops: seq<Op>, i: nat)
    requires todo != [] && Logs(ch, todo[0], i) + Carried(ch, ops, i) == Carries(ch, todo[0], i)
    ensures Logs(ch, todo[0], i) + Carried(ch, ops + todo[1..], i) == Carried(ch, todo, i)
  {
    CarriedAppend(ch, ops, todo[1..], i);
    Regroup(Logs(ch, todo[0], i), Carried(ch, ops, i), Carried(ch, todo[1..], i));
  }

  /** A block shows at most one event. */
  lemma BlockPicks(ch: Channel, evs: seq<Event>, i: nat, traces: seq<seq<Event>>)
    requires BlockOk(evs, traces)
    ensures |Picks(ch, evs, i)| <= 1
  {
    if |evs| == 2 {
      PicksAppend(ch, [evs[0]], [evs[1]], i);
      assert [evs[0]] + [evs[1]] == evs;
      PicksOne(ch, evs[0], i);
      PicksOne(ch, evs[1], i);
    } else {
      PicksOne(ch, evs[0], i);
      assert evs == [evs[0]];
    }
  }

  lemma LogsOne(ch: Channel, s: System, traces: seq<seq<Event>>, j: nat, i: nat)
    requires Shape(s, traces) && j < |s.jobs| && s.jobs[j].todo != []
    ensures |Logs(ch, s.jobs[j].todo[0], i)| <= 1
  {
    var op := s.jobs[j].todo[0];
    assert OpOk(op, j, traces);
    if op.Emit? {
      BlockPicks(ch, op.evs, i, traces);
    } else if op.Merge? {
      PicksOne(ch, op.ev, i);
    }
  }

  /** After the transition an operation changes what its goroutine carries only by delivering it. */
  lemma LateExecCarries(ch: Channel, s: System, traces: seq<seq<Event>>, j: nat, c: Choice, i: nat)
    requires Good(s, traces) && Enabled(s, Exec(j, c)) && s.agg.readyEmitted
    ensures var t, logged := Next(s, Exec(j, c)), Logs(ch, s.jobs[j].todo[0], i);
      && |logged| <= 1
      && Seen(ch, t.agg, i) == Seen(ch, s.agg, i) + logged
      && logged + Carried(ch, t.jobs[j].todo, i) == Carried(ch, s.jobs[j].todo, i)
  {
    ExecPasses(ch, s, traces, j, c, i);
    LogsOne(ch, s, traces, j, i);
    LateTodo(ch, s.jobs[j].todo, ExecOp(s.agg, j, s.jobs[j].todo[0], c).1, i);
  }

  /** A step that is not an operation leaves what goroutine j carries of job i, or moves it into a sink call. */
  ghost predicate SameLive(ch: Channel, g: Goroutine, h: Goroutine, j: nat, i: nat) {
    Live(ch, h, i) == Live(ch, g, i) && (j != i ==> Carried(ch, h.todo, i) == Carried(ch, g.todo, i))
  }

  lemma StageCarries(ch: Channel, s: System, act: Action, j: nat, i: nat)
    requires Lifecycle(s) && Enabled(s, act) && !act.Exec? && !act.Call? && !act.Mark? && j < |s.jobs|
    ensures |Next(s, act).jobs| == |s.jobs| && SameLive(ch, s.jobs[j], Next(s, act).jobs[j], j, i)
  {
    assert Next(s, act).jobs[j].rest == s.jobs[j].rest && Next(s, act).jobs[j].todo == s.jobs[j].todo;
  }

  lemma MarkCarries(ch: Channel, s: System, j: nat, i: nat)
    requires Lifecycle(s) && Enabled(s, Mark(j))
    ensures SameLive(ch, s.jobs[j], Next(s, Mark(j)).jobs[j], j, i)
  {
    assert ControlOk(s.jobs[j]);
    var g, h := s.jobs[j], Next(s, Mark(j)).jobs[j];
    assert g.todo == [] && h.rest == g.rest && (h.todo == [] || h.todo == [Emit([OuterResult])]);
    ResultCarries(ch, i);
    assert Carried(ch, h.todo, i) == Carried(ch, g.todo, i) == [];
  }

  lemma ResultCarries(ch: Channel, i: nat)
    ensures Carried(ch, [Emit([OuterResult])], i) == []
  {
    CarriedOne(ch, Emit([OuterResult]), i);
    NoPicks(ch, [OuterResult], i);
  }

  lemma SinkCarries(ch: Channel, s: System, traces: seq<seq<Event>>, j: nat, i: nat)
    requires Good(s, traces) && Enabled(s, Call(j))
    ensures SameLive(ch, s.jobs[j], Next(s, Call(j)).jobs[j], j, i)
  {
    CallCarries(ch, s, j, i);
    if j != i {
      ForeignRest(ch, s, traces, j, i);
      NextGood(s, Call(j), traces);
      ForeignRest(ch, Next(s, Call(j)), traces, j, i);
    }
  }

  lemma QuietCarries(ch: Channel, s: System, traces: seq<seq<Event>>, act: Action, j: nat, i: nat)
    requires Good(s, traces) && Enabled(s, act) && !act.Exec? && j < |s.jobs| && i < |s.jobs|
    ensures |Next(s, act).jobs| == |s.jobs| && SameLive(ch, s.jobs[j], Next(s, act).jobs[j], j, i)
  {
    if act == Call(j) {
      SinkCarries(ch, s, traces, j, i);
    } else if act == Mark(j) {
      MarkCarries(ch, s, j, i);
    } else if act.Call? || act.Mark? {
      QuietElsewhere(s, act, j);
    } else {
      StageCarries(ch, s, act, j, i);
    }
  }

  lemma CallCarries(ch: Channel, s: System, j: nat, i: nat)
    requires Enabled(s, Call(j)) && |s.agg.perJob| == |s.jobs|
    ensures Live(ch, Next(s, Call(j)).jobs[j], i) == Live(ch, s.jobs[j], i)
  {
    var g := s.jobs[j];
    CarriedOne(ch, Handle(g.rest[0]), i);
    assert [g.rest[0]] + g.rest[1..] == g.rest;
    PicksAppend(ch, [g.rest[0]], g.rest[1..], i);
  }

  lemma QuietLog(ch: Channel, s: System, traces: seq<seq<Event>>, act: Action, i: nat)
    requires Good(s, traces) && Enabled(s, act) && !act.Exec?
    ensures Seen(ch, Next(s, act).agg, i) == Seen(ch, s.agg, i)
    ensures Next(s, act).agg.readyEmitted == s.agg.readyEmitted
  {
    if act.EmitFinal? {
      PicksAppend(ch, s.agg.log, [OuterResult], i);
      NoPicks(ch, [OuterResult], i);
    }
  }

  // ----- after the transition -----

  /**
   Of one job, when phase 2 opens: what has been seen of it, what the goroutine that opens phase 2 replays of it, and
   what its own goroutine still has.
   */
  datatype Parts = Parts(base: seq<Event>, early: seq<Event>, late: seq<Event>)

  /** Goroutine r opened phase 2: since then a was seen of its replay, z of what job i's own goroutine had. */
  ghost predicate PartsAt(ch: Channel, s: System, r: nat, i: nat, q: Parts, a: seq<Event>, z: seq<Event>)
    requires i < |s.jobs| && r < |s.jobs|
  {
    && a + Carried(ch, s.jobs[r].todo, i) == q.early
    && z + Live(ch, s.jobs[i], i) == q.late
    && q.base <= Seen(ch, s.agg, i) && Shuffle(Seen(ch, s.agg, i)[|q.base|..], a, z)
  }

  /** Only goroutine r and its own carry job i's events. */
  ghost predicate OnlyTwoCarry(ch: Channel, s: System, r: nat, i: nat) {
    forall j | 0 <= j < |s.jobs| && j != i && j != r :: Carried(ch, s.jobs[j].todo, i) == []
  }

  ghost predicate LateAt(ch: Channel, s: System, r: nat, i: nat, q: Parts)
    requires i < |s.jobs| && r < |s.jobs|
  {
    && OnlyTwoCarry(ch, s, r, i)
    && (if i == r then Seen(ch, s.agg, i) + Live(ch, s.jobs[i], i) == (q.base + q.early) + q.late
        else exists a, z :: PartsAt(ch, s, r, i, q, a, z))
  }

  lemma OwnMoves(sent: seq<Event>, logged: seq<Event>, carried: seq<Event>, rest: seq<Event>, all: seq<Event>)
    requires sent + ((logged + carried) + rest) == all
    ensures (sent + logged) + (carried + rest) == all
  {
    assert sent + ((logged + carried) + rest) == (sent + logged) + (carried + rest);
  }

  lemma NothingToLog(logged: seq<Event>, carried: seq<Event>)
    requires logged + carried == []
    ensures logged == [] && carried == []
  {
  }

  /** One more event is seen, of the first part or of the second. */
  lemma SeenMore(seen: seq<Event>, base: seq<Event>, a: seq<Event>, z: seq<Event>, more: seq<Event>)
    requires base <= seen && Shuffle(seen[|base|..], a, z) && |more| <= 1
    ensures base <= seen + more
    ensures Shuffle((seen + more)[|base|..], a + more, z) && Shuffle((seen + more)[|base|..], a, z + more)
  {
    assert (seen + more)[|base|..] == seen[|base|..] + more;
    ShuffleMore(seen[|base|..], a, z, more);
  }

  /** A step of a goroutine that carries nothing of job i. */
  lemma LateExecElsewhere(ch: Channel, s: System, traces: seq<seq<Event>>, j: nat, c: Choice, i: nat)
    requires Good(s, traces) && Enabled(s, Exec(j, c)) && s.agg.readyEmitted
    requires Carried(ch, s.jobs[j].todo, i) == []
    ensures var t := Next(s, Exec(j, c));
      Seen(ch, t.agg, i) == Seen(ch, s.agg, i) && Carried(ch, t.jobs[j].todo, i) == []
  {
    LateExecCarries(ch, s, traces, j, c, i);
    NothingToLog(Logs(ch, s.jobs[j].todo[0], i), Carried(ch, Next(s, Exec(j, c)).jobs[j].todo, i));
    assert Seen(ch, s.agg, i) + [] == Seen(ch, s.agg, i);
  }

  /** Goroutine r delivers from the first part. */
  lemma LateExecReplay(ch: Channel, s: System, traces: seq<seq<Event>>, r: nat, i: nat, q: Parts, c: Choice)
    requires Good(s, traces) && Enabled(s, Exec(r, c)) && s.agg.readyEmitted && i < |s.jobs| && i != r
    requires exists a, z :: PartsAt(ch, s, r, i, q, a, z)
    ensures exists a, z :: PartsAt(ch, Next(s, Exec(r, c)), r, i, q, a, z)
  {
    var a, z :| PartsAt(ch, s, r, i, q, a, z);
    var t, logged := Next(s, Exec(r, c)), Logs(ch, s.jobs[r].todo[0], i);
    LateExecCarries(ch, s, traces, r, c, i);
    EarlyDelivered(ch, s, t, r, i, q, a, z, logged);
  }

  lemma EarlyDelivered(ch: Channel, s: System, t: System, r: nat, i: nat, q: Parts, a: seq<Event>, z: seq<Event>,
                       logged: seq<Event>)
    requires i < |s.jobs| == |t.jobs| && r < |s.jobs| && PartsAt(ch, s, r, i, q, a, z) && t.jobs[i] == s.jobs[i]
    requires |logged| <= 1 && Seen(ch, t.agg, i) == Seen(ch, s.agg, i) + logged
    requires logged + Carried(ch, t.jobs[r].todo, i) == Carried(ch, s.jobs[r].todo, i)
    ensures PartsAt(ch, t, r, i, q, a + logged, z)
  {
    SeenMore(Seen(ch, s.agg, i), q.base, a, z, logged);
    Regroup(a, logged, Carried(ch, t.jobs[r].todo, i));
  }

  /** Job i's own goroutine delivers from the second. */
  lemma LateExecLive(ch: Channel, s: System, traces: seq<seq<Event>>, r: nat, i: nat, q: Parts, c: Choice)
    requires Good(s, traces) && Enabled(s, Exec(i, c)) && s.agg.readyEmitted && r < |s.jobs| && i != r
    requires exists a, z :: PartsAt(ch, s, r, i, q, a, z)
    ensures exists a, z :: PartsAt(ch, Next(s, Exec(i, c)), r, i, q, a, z)
  {
    var a, z :| PartsAt(ch, s, r, i, q, a, z);
    var t, logged := Next(s, Exec(i, c)), Logs(ch, s.jobs[i].todo[0], i);
    LateExecCarries(ch, s, traces, i, c, i);
    SeenMore(Seen(ch, s.agg, i), q.base, a, z, logged);
    OwnMoves(z, logged, Carried(ch, t.jobs[i].todo, i), Picks(ch, s.jobs[i].rest, i), q.late);
    assert PartsAt(ch, t, r, i, q, a, z + logged);
  }

  lemma LateExecOwn(ch: Channel, s: System, traces: seq<seq<Event>>, r: nat, c: Choice)
    requires Good(s, traces) && Enabled(s, Exec(r, c)) && s.agg.readyEmitted
    ensures var t := Next(s, Exec(r, c));
      Seen(ch, t.agg, r) + Live(ch, t.jobs[r], r) == Seen(ch, s.agg, r) + Live(ch, s.jobs[r], r)
  {
    var t := Next(s, Exec(r, c));
    LateExecCarries(ch, s, traces, r, c, r);
    OwnMoves(Seen(ch, s.agg, r), Logs(ch, s.jobs[r].todo[0], r), Carried(ch, t.jobs[r].todo, r),
      Picks(ch, s.jobs[r].rest, r), Seen(ch, s.agg, r) + Live(ch, s.jobs[r], r));
  }

  lemma LateExecOthers(ch: Channel, s: System, traces: seq<seq<Event>>, j: nat, c: Choice, r: nat, i: nat)
    requires Good(s, traces) && Enabled(s, Exec(j, c)) && s.agg.readyEmitted && OnlyTwoCarry(ch, s, r, i)
    ensures OnlyTwoCarry(ch, Next(s, Exec(j, c)), r, i)
  {
    if j != i && j != r {
      LateExecElsewhere(ch, s, traces, j, c, i);
    }
  }

  lemma LateExec(ch: Channel, s: System, traces: seq<seq<Event>>, r: nat, i: nat, q: Parts, j: nat, c: Choice)
    requires Good(s, traces) && Enabled(s, Exec(j, c)) && s.agg.readyEmitted
    requires i < |s.jobs| && r < |s.jobs| && LateAt(ch, s, r, i, q)
    ensures |Next(s, Exec(j, c)).jobs| == |s.jobs| && LateAt(ch, Next(s, Exec(j, c)), r, i, q)
  {
    LateExecOthers(ch, s, traces, j, c, r, i);
    if j != i && j != r {
      LateExecElsewhere(ch, s, traces, j, c, i);
      if i != r {
        var a, z :| PartsAt(ch, s, r, i, q, a, z);
        assert PartsAt(ch, Next(s, Exec(j, c)), r, i, q, a, z);
      }
    } else if i == r {
      LateExecOwn(ch, s, traces, r, c);
    } else if j == r {
      LateExecReplay(ch, s, traces, r, i, q, c);
    } else {
      LateExecLive(ch, s, traces, r, i, q, c);
    }
  }

  lemma LateQuiet(ch: Channel, s: System, traces: seq<seq<Event>>, r: nat, i: nat, q: Parts, act: Action)
    requires Good(s, traces) && Enabled(s, act) && !act.Exec?
    requires i < |s.jobs| && r < |s.jobs| && LateAt(ch, s, r, i, q)
    ensures |Next(s, act).jobs| == |s.jobs| && LateAt(ch, Next(s, act), r, i, q)
  {
    var t := Next(s, act);
    QuietLog(ch, s, traces, act, i);
    QuietCarries(ch, s, traces, act, i, i);
    QuietCarries(ch, s, traces, act, r, i);
    forall j | 0 <= j < |t.jobs| && j != i && j != r ensures Carried(ch, t.jobs[j].todo, i) == [] {
      QuietCarries(ch, s, traces, act, j, i);
    }
    if i != r {
      var a, z :| PartsAt(ch, s, r, i, q, a, z);
      assert PartsAt(ch, t, r, i, q, a, z);
    }
  }

  lemma {:induction false} LateRun(ch: Channel, s: System, acts: seq<Action>, t: System, traces: seq<seq<Event>>,
                                   r: nat, i: nat, q: Parts)
    requires Good(s, traces) && s.agg.readyEmitted && Runs(s, acts, t)
    requires i < |s.jobs| && r < |s.jobs| && LateAt(ch, s, r, i, q)
    ensures |t.jobs| == |s.jobs| && LateAt(ch, t, r, i, q)
    decreases acts
  {
    if acts != [] {
      NextGood(s, acts[0], traces);
      if acts[0].Exec? {
        LateExec(ch, s, traces, r, i, q, acts[0].i, acts[0].c);
        ReadyStays(s.agg, acts[0].i, s.jobs[acts[0].i].todo[0], acts[0].c);
      } else {
        LateQuiet(ch, s, traces, r, i, q, acts[0]);
        QuietLog(ch, s, traces, acts[0], i);
      }
      LateRun(ch, Next(s, acts[0]), acts[1..], t, traces, r, i, q);
    }
  }

  lemma {:induction false} ReadyForGood(s: System, acts: seq<Action>, t: System)
    requires Runs(s, acts, t) && s.agg.readyEmitted
    ensures t.agg.readyEmitted
    decreases acts
  {
    if acts != [] {
      ReadyForGood(Next(s, acts[0]), acts[1..], t);
    }
  }
}

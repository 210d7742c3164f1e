/** The theorems about every complete run of the fan-out. */
module FanoutResults {
  import opened Sums
  import opened AggregatorSpec
  import opened Fanout
  import opened FanoutShape
  import opened FanoutDelivery
  import opened FanoutOutcome

  // ----- the outer Result is the last entry -----

  /** Once the outer Result is logged nothing follows it. */
  ghost predicate ResultLast(s: System) {
    OuterResult in s.agg.log ==> s.agg.log[|s.agg.log| - 1] == OuterResult
  }

  lemma {:induction false} Occurs(evs: seq<Event>, x: Event)
    ensures Sum(evs, Is(x)) == multiset(evs)[x] && (Sum(evs, Is(x)) > 0 <==> x in evs)
  {
    if evs != [] {
      Occurs(evs[1..], x);
      assert evs == [evs[0]] + evs[1..];
    }
  }

  lemma FiredParts(s: System, x: Event)
    ensures forall j | 0 <= j < |s.jobs| ::
      0 <= Sum(s.jobs[j].todo, EmitWeight(x)) <= Sum(s.jobs, Load(Nothing(), EmitWeight(x)))
    ensures Sum(s.jobs, Load(Nothing(), EmitWeight(x))) >= 0
    ensures Sum(MainTodo(s.main), EmitWeight(x)) >= 0
  {
    OpsNonNegative(MainTodo(s.main), x);
    forall j | 0 <= j < |s.jobs|
      ensures Load(Nothing(), EmitWeight(x))(s.jobs[j]) == Sum(s.jobs[j].todo, EmitWeight(x)) >= 0
    {
      OpsNonNegative(s.jobs[j].todo, x);
      SumConstant(s.jobs[j].rest, 0, Nothing());
    }
    SumNonNegative(s.jobs, Load(Nothing(), EmitWeight(x)));
  }

  lemma OpsNonNegative(ops: seq<Op>, x: Event)
    ensures Sum(ops, EmitWeight(x)) >= 0
  {
    forall op | op in ops ensures EmitWeight(x)(op) >= 0 {
      if op.Emit? { Occurs(op.evs, x); }
    }
    SumNonNegative(ops, EmitWeight(x));
  }

  /** After the outer Result no goroutine has anything left to emit. */
  lemma NothingAfterResult(s: System, i: nat)
    requires Lifecycle(s) && OneShot(s) && OuterResult in s.agg.log
    requires i < |s.jobs|
    ensures s.jobs[i].todo == []
  {
    Occurs(s.agg.log, OuterResult);
    FiredParts(s, OuterResult);
    assert s.agg.finalEmitted;
    assert Counted(s.jobs[i]) && ControlOk(s.jobs[i]);
    ResultFired(OuterResult);
  }

  lemma ExecResultLast(s: System, i: nat, c: Choice, traces: seq<seq<Event>>)
    requires Good(s, traces) && OneShot(s) && ResultLast(s) && Enabled(s, Exec(i, c))
    ensures ResultLast(Next(s, Exec(i, c)))
  {
    var op := s.jobs[i].todo[0];
    assert OpOk(op, i, traces);
    ExecLog(s.agg, i, op, c);
    assert Next(s, Exec(i, c)).agg.log == if op.Emit? then s.agg.log + op.evs else s.agg.log;
    if OuterResult in s.agg.log {
      NothingAfterResult(s, i);
    } else if op.Emit? {
      BlockWithResult(s.agg.log, op.evs, traces);
    }
  }

  lemma BlockWithResult(log: seq<Event>, evs: seq<Event>, traces: seq<seq<Event>>)
    requires BlockOk(evs, traces) && OuterResult !in log
    ensures OuterResult in log + evs ==> (log + evs)[|log + evs| - 1] == OuterResult
  {
    if OuterResult in log + evs {
      assert OuterResult in evs;
      assert evs == [OuterResult];
    }
  }

  lemma NextResultLast(s: System, act: Action, traces: seq<seq<Event>>)
    requires Good(s, traces) && OneShot(s) && ResultLast(s) && Enabled(s, act)
    ensures ResultLast(Next(s, act))
  {
    if act.Exec? {
      ExecResultLast(s, act.i, act.c, traces);
    } else {
      QuietResultLast(s, act);
    }
  }

  lemma QuietResultLast(s: System, act: Action)
    requires Lifecycle(s) && ResultLast(s) && Enabled(s, act) && !act.Exec?
    ensures ResultLast(Next(s, act))
  {
    if !act.EmitFinal? {
      assert Next(s, act).agg.log == s.agg.log;
    }
  }

  lemma ExecLog(a: Aggregator, i: nat, op: Op, c: Choice)
    requires i < |a.perJob|
    ensures ExecOp(a, i, op, c).0.log == if op.Emit? then a.log + op.evs else a.log
  {
  }

  // ----- strays -----

  /** Before the transition the buffered keyed ToolEnds are exactly the strays. */
  ghost predicate StraysWait(s: System, f: Event -> int) {
    !s.agg.readyEmitted ==> Sum(s.agg.perJob, BufferWeight(f)) == Sum(s.agg.strays, f)
  }

  ghost predicate EndWeight(f: Event -> int) {
    forall ev: Event | !ev.KeyedEnd() :: f(ev) == 0
  }

  lemma BufferStrays(a: Aggregator, i: nat, ev: Event, order: seq<nat>, f: Event -> int)
    requires i < |a.perJob| && EndWeight(f)
    requires Sum(a.perJob, BufferWeight(f)) == Sum(a.strays, f)
    ensures var b := BufferSection(a, i, ev, order).0;
      !b.readyEmitted ==> Sum(b.perJob, BufferWeight(f)) == Sum(b.strays, f)
  {
    var p := a.perJob[i];
    if a.phase.Buffering? {
      var q := PerJob(if ev.KeyedStart() then p.pending[ev.toolId := ev] else p.pending, p.initBuffer + [ev]);
      BufferedAccount(a, i, ev, q, f);
      if ev.KeyedEnd() {
        if ev.toolId in p.pending {
          SumUpdate(a.perJob, i, PerJob(p.pending - {ev.toolId}, p.initBuffer), BufferWeight(f));
        } else {
          SumAppend(a.strays, [ev], f);
          SumSmall(f, ev, ev);
        }
      } else {
        var a1 := a.(perJob := a.perJob[i := q],
                     readyCount := if ev.kind.Ready? then a.readyCount + 1 else a.readyCount);
        assert BufferSection(a, i, ev, order) == TransitionGate(a1, order);
      }
    }
  }

  lemma NextStrays(s: System, act: Action, traces: seq<seq<Event>>, f: Event -> int)
    requires Good(s, traces) && Split(s) && StraysWait(s, f) && EndWeight(f) && Enabled(s, act)
    ensures StraysWait(Next(s, act), f)
  {
    match act
    case Exec(i, c) =>
      var op := s.jobs[i].todo[0];
      ExecReady(s.agg, i, op, c);
      if !s.agg.readyEmitted {
        assert EarlyOp(op);
        if op.Buffer? { BufferStrays(s.agg, i, op.ev, c.order, f); }
      }
    case Wrap(i) => SumUpdate(s.agg.perJob, i, EmptyJob, BufferWeight(f));
    case _ =>
  }

  // ----- whole runs -----

  ghost function ReadysOf(): seq<Event> -> int { (trace: seq<Event>) => Sum(trace, IsReady()) }

  /** How many Readys the turns send in all. */
  ghost function ReadysSent(traces: seq<seq<Event>>): int { Sum(traces, ReadysOf()) }

  ghost predicate Inv(s: System, traces: seq<seq<Event>>) {
    && Good(s, traces) && Split(s) && ReadyGate(s, ReadysSent(traces)) && OneShot(s) && ResultLast(s)
  }

  lemma InitReadyGate(traces: seq<seq<Event>>)
    ensures ReadyGate(Init(traces), ReadysSent(traces))
  {
    var s := Init(traces);
    forall i | 0 <= i < |traces| ensures Load(IsReady(), ReadyAhead())(s.jobs[i]) == ReadysOf()(traces[i]) {
      SumPointwise(Stamp(i, traces[i]), traces[i], IsReady(), IsReady());
    }
    SumPointwise(s.jobs, traces, Load(IsReady(), ReadyAhead()), ReadysOf());
  }

  lemma InitFired(traces: seq<seq<Event>>, x: Event)
    ensures Fired(Init(traces), x) == 0
  {
    var jobs := Init(traces).jobs;
    forall g | g in jobs ensures Load(Nothing(), EmitWeight(x))(g) == 0 {
      SumConstant(g.rest, 0, Nothing());
    }
    SumConstant(jobs, 0, Load(Nothing(), EmitWeight(x)));
  }

  lemma InitOneShot(traces: seq<seq<Event>>)
    ensures OneShot(Init(traces))
  {
    InitFired(traces, SyntheticReady);
    InitFired(traces, OuterResult);
  }

  lemma InitSplit(traces: seq<seq<Event>>)
    ensures Split(Init(traces)) && ResultLast(Init(traces))
  {
  }

  lemma InitInv(traces: seq<seq<Event>>)
    ensures Inv(Init(traces), traces)
  {
    InitGood(traces);
    InitSplit(traces);
    InitReadyGate(traces);
    InitOneShot(traces);
  }

  lemma NextInv(s: System, act: Action, traces: seq<seq<Event>>)
    requires Inv(s, traces) && Enabled(s, act)
    ensures Inv(Next(s, act), traces)
  {
    NextGood(s, act, traces);
    NextSplit(s, act, traces);
    NextReadyGate(s, act, traces, ReadysSent(traces));
    NextOneShot(s, act, traces);
    NextResultLast(s, act, traces);
  }

  lemma {:induction false} RunInv(s: System, acts: seq<Action>, t: System, traces: seq<seq<Event>>)
    requires Inv(s, traces) && Runs(s, acts, t)
    ensures Inv(t, traces)
    decreases acts
  {
    if acts != [] {
      NextInv(s, acts[0], traces);
      RunInv(Next(s, acts[0]), acts[1..], t, traces);
    }
  }

  lemma {:induction false} RunStrays(s: System, acts: seq<Action>, t: System, traces: seq<seq<Event>>, f: Event -> int)
    requires Inv(s, traces) && StraysWait(s, f) && EndWeight(f) && Runs(s, acts, t)
    ensures StraysWait(t, f)
    decreases acts
  {
    if acts != [] {
      NextInv(s, acts[0], traces);
      NextStrays(s, acts[0], traces, f);
      RunStrays(Next(s, acts[0]), acts[1..], t, traces, f);
    }
  }

  /** Invariant #11: at most one outer Ready and at most one outer Result, at every moment of every run. */
  lemma AtMostOnce(traces: seq<seq<Event>>, acts: seq<Action>, t: System)
    requires Runs(Init(traces), acts, t)
    ensures multiset(t.agg.log)[SyntheticReady] <= 1
    ensures multiset(t.agg.log)[OuterResult] <= 1
    ensures OuterResult in t.agg.log ==> t.agg.log[|t.agg.log| - 1] == OuterResult
  {
    RunOneShot(traces, acts, t);
    OneShotLogged(t);
  }

  lemma RunOneShot(traces: seq<seq<Event>>, acts: seq<Action>, t: System)
    requires Runs(Init(traces), acts, t)
    ensures OneShot(t) && ResultLast(t)
  {
    InitInv(traces);
    RunInv(Init(traces), acts, t, traces);
  }

  lemma OneShotLogged(t: System)
    requires OneShot(t)
    ensures multiset(t.agg.log)[SyntheticReady] <= 1 && multiset(t.agg.log)[OuterResult] <= 1
  {
    LoggedWhenFired(t, SyntheticReady);
    LoggedWhenFired(t, OuterResult);
  }

  lemma LoggedWhenFired(t: System, x: Event)
    ensures multiset(t.agg.log)[x] <= Fired(t, x)
  {
    Occurs(t.agg.log, x);
    FiredParts(t, x);
  }

  /** At the merge every goroutine is gone and empty-handed. */
  lemma NoMoreToEmit(t: System, x: Event)
    requires Lifecycle(t) && t.main.Merged?
    ensures Fired(t, x) == Sum(t.agg.log, Is(x)) == multiset(t.agg.log)[x]
    ensures Readys(t) == t.agg.readyCount
  {
    forall g | g in t.jobs ensures g.rest == [] && g.todo == [] {
      var j :| 0 <= j < |t.jobs| && t.jobs[j] == g;
      assert ControlOk(t.jobs[j]);
    }
    SumConstant(t.jobs, 0, Load(Nothing(), EmitWeight(x)));
    SumConstant(t.jobs, 0, Load(IsReady(), ReadyAhead()));
    Occurs(t.agg.log, x);
  }

  lemma RunToEnd(traces: seq<seq<Event>>, acts: seq<Action>, t: System)
    requires Runs(Init(traces), acts, t) && t.main.Merged?
    ensures Inv(t, traces) && |t.jobs| == |traces| == t.agg.expected
  {
    InitInv(traces);
    RunInv(Init(traces), acts, t, traces);
  }

  /**
   Every complete run, whatever the turns sent: exactly one outer Result and it is the last
   entry; one outer Ready exactly when the turns sent at least as many Readys as there are
   groups.
   */
  lemma CompleteRun(traces: seq<seq<Event>>, acts: seq<Action>, t: System)
    requires Runs(Init(traces), acts, t) && t.main.Merged?
    ensures multiset(t.agg.log)[OuterResult] == 1
    ensures t.agg.log != [] && t.agg.log[|t.agg.log| - 1] == OuterResult
    ensures traces != [] ==>
      multiset(t.agg.log)[SyntheticReady] == (if ReadysSent(traces) >= |traces| then 1 else 0)
    ensures traces != [] ==> (t.agg.readyEmitted <==> ReadysSent(traces) >= |traces|)
  {
    RunToEnd(traces, acts, t);
    MergedResult(t);
    MergedReady(t, traces);
  }

  lemma LoggedLast(log: seq<Event>)
    requires multiset(log)[OuterResult] == 1 && (OuterResult in log ==> log[|log| - 1] == OuterResult)
    ensures log != [] && log[|log| - 1] == OuterResult
  {
    assert OuterResult in multiset(log);
  }

  lemma MergedResult(t: System)
    requires Lifecycle(t) && OneShot(t) && ResultLast(t) && t.main.Merged?
    ensures multiset(t.agg.log)[OuterResult] == 1
    ensures t.agg.log != [] && t.agg.log[|t.agg.log| - 1] == OuterResult
  {
    NoMoreToEmit(t, OuterResult);
    LoggedLast(t.agg.log);
  }

  lemma MergedReady(t: System, traces: seq<seq<Event>>)
    requires Inv(t, traces) && t.main.Merged? && |t.jobs| == |traces| == t.agg.expected
    ensures traces != [] ==>
      multiset(t.agg.log)[SyntheticReady] == (if ReadysSent(traces) >= |traces| then 1 else 0)
    ensures traces != [] ==> (t.agg.readyEmitted <==> ReadysSent(traces) >= |traces|)
  {
    NoMoreToEmit(t, SyntheticReady);
  }

  lemma SentBy(traces: seq<seq<Event>>, e: Event)
    requires e.source.Job? && e.source.index < |traces|
    ensures Sent(traces, Is(e)) == multiset(Stamp(e.source.index, traces[e.source.index]))[e]
  {
    var jobs := Init(traces).jobs;
    var i := e.source.index;
    forall k | 0 <= k < |jobs| && k != i ensures JobWeight(Is(e))(jobs[k]) == 0 {
      SumConstant(jobs[k].rest, 0, Is(e));
    }
    SumOnly(jobs, i, JobWeight(Is(e)));
    Occurs(Stamp(i, traces[i]), e);
  }

  lemma EarlyLog(log: seq<Event>, e: Event)
    requires EarlyEvents(log) && e.kind.PassThrough?
    ensures multiset(log)[e] == 0
  {
    assert e !in log;
  }

  /**
   Exactly-once delivery of text, permissions and every other passed-through event: if the
   turns sent enough Readys, each is in the outer log exactly as often as its turn sent it;
   otherwise none is.
   */
  lemma PassThroughDelivery(traces: seq<seq<Event>>, acts: seq<Action>, t: System, e: Event)
    requires Runs(Init(traces), acts, t) && t.main.Merged?
    requires e.kind.PassThrough? && e.source.Job? && e.source.index < |traces|
    ensures multiset(t.agg.log)[e]
         == if ReadysSent(traces) >= |traces| then multiset(Stamp(e.source.index, traces[e.source.index]))[e] else 0
  {
    CompleteRun(traces, acts, t);
    if t.agg.readyEmitted {
      NoStrayCopy(traces, acts, t, e);
      DeliveredInFull(traces, acts, t, Is(e));
      SentBy(traces, e);
      Occurs(t.agg.log, e);
    } else {
      RunToEnd(traces, acts, t);
      EarlyLog(t.agg.log, e);
    }
  }

  lemma NoStrayCopy(traces: seq<seq<Event>>, acts: seq<Action>, t: System, e: Event)
    requires Runs(Init(traces), acts, t) && !e.KeyedEnd()
    ensures Sum(t.agg.strays, Is(e)) == 0
  {
    StraysAreEnds(traces, acts, t);
    SumConstant(t.agg.strays, 0, Is(e));
  }

  lemma DeliveredInFull(traces: seq<seq<Event>>, acts: seq<Action>, t: System, f: Event -> int)
    requires Runs(Init(traces), acts, t) && t.main.Merged? && t.agg.readyEmitted && Deliverable(f)
    ensures Sum(t.agg.log, f) == Sent(traces, f) + Sum(t.agg.strays, f)
  {
    InitInv(traces);
    RunInv(Init(traces), acts, t, traces);
    FinalAccount(traces, acts, t, f);
    SumConstant(t.agg.perJob, 0, BufferWeight(f));
  }

  /** Only keyed ToolEnds are ever strays. */
  lemma StraysAreEnds(traces: seq<seq<Event>>, acts: seq<Action>, t: System)
    requires Runs(Init(traces), acts, t)
    ensures forall ev | ev in t.agg.strays :: ev.KeyedEnd()
  {
    RunStrayKinds(Init(traces), acts, t);
  }

  lemma {:induction false} RunStrayKinds(s: System, acts: seq<Action>, t: System)
    requires forall ev | ev in s.agg.strays :: ev.KeyedEnd()
    requires Runs(s, acts, t)
    ensures forall ev | ev in t.agg.strays :: ev.KeyedEnd()
    decreases acts
  {
    if acts != [] {
      RunStrayKinds(Next(s, acts[0]), acts[1..], t);
    }
  }

  /**
   ToolEnds, in every complete run: each keyed ToolEnd is in the outer log as often as its
   turn sent it, plus once more for every time its phase-1 lookup failed and a transition
   followed (emitted at once, then replayed).
   */
  lemma ToolEndDelivery(traces: seq<seq<Event>>, acts: seq<Action>, t: System, e: Event)
    requires Runs(Init(traces), acts, t) && t.main.Merged?
    requires e.KeyedEnd() && e.source.Job? && e.source.index < |traces|
    ensures multiset(t.agg.log)[e] == multiset(Stamp(e.source.index, traces[e.source.index]))[e]
      + (if ReadysSent(traces) >= |traces| then multiset(t.agg.strays)[e] else 0)
  {
    CompleteRun(traces, acts, t);
    EndAccount(traces, acts, t, e);
    SentBy(traces, e);
    Occurs(t.agg.log, e);
    Occurs(t.agg.strays, e);
  }

  lemma EndAccount(traces: seq<seq<Event>>, acts: seq<Action>, t: System, e: Event)
    requires Runs(Init(traces), acts, t) && t.main.Merged? && e.KeyedEnd()
    ensures Sum(t.agg.log, Is(e)) == Sent(traces, Is(e)) + if t.agg.readyEmitted then Sum(t.agg.strays, Is(e)) else 0
  {
    if t.agg.readyEmitted {
      DeliveredInFull(traces, acts, t, Is(e));
    } else {
      StraysUntilTransition(traces, acts, t, Is(e));
      FinalAccount(traces, acts, t, Is(e));
    }
  }

  lemma StraysUntilTransition(traces: seq<seq<Event>>, acts: seq<Action>, t: System, f: Event -> int)
    requires Runs(Init(traces), acts, t) && EndWeight(f)
    ensures StraysWait(t, f)
  {
    InitInv(traces);
    SumConstant(Init(traces).agg.perJob, 0, BufferWeight(f));
    RunStrays(Init(traces), acts, t, traces, f);
  }

  /** The events of one kind of one job. */
  ghost function OfKind(kind: Kind, i: nat): Event -> int {
    (ev: Event) => if ev.kind == kind && ev.source == Job(i) then 1 else 0
  }

  /** One snapshot of the same kind reaches the outer log for every task event sent, once enough Readys came. */
  lemma SnapshotPerTaskEvent(traces: seq<seq<Event>>, acts: seq<Action>, t: System, kind: Kind, i: nat)
    requires Runs(Init(traces), acts, t) && t.main.Merged? && i < |traces|
    requires ReadysSent(traces) >= |traces| && (kind == TaskCreate || kind == TaskUpdate)
    ensures Sum(t.agg.log, OfKind(kind, i)) == Sum(Stamp(i, traces[i]), OfKind(kind, i))
  {
    CompleteRun(traces, acts, t);
    var f := OfKind(kind, i);
    DeliveredInFull(traces, acts, t, f);
    StraysAreEnds(traces, acts, t);
    SumConstant(t.agg.strays, 0, f);
    var jobs := Init(traces).jobs;
    forall k | 0 <= k < |jobs| && k != i ensures JobWeight(f)(jobs[k]) == 0 {
      SumConstant(jobs[k].rest, 0, f);
    }
    SumOnly(jobs, i, JobWeight(f));
  }

  /** With at least one group, the orchestrator's finalize always finds its work already done. */
  lemma FinalizeAddsNothing(traces: seq<seq<Event>>, acts: seq<Action>, t: System)
    requires Runs(Init(traces), acts, t) && traces != [] && Enabled(t, Finalize)
    ensures FinalizeSection(t.agg) == (t.agg, [])
  {
    InitInv(traces);
    RunInv(Init(traces), acts, t, traces);
    CountedBound(t.jobs);
  }

  /** The phase only moves forward and the outer log only grows. */
  lemma {:induction false} RunMonotone(s: System, acts: seq<Action>, t: System)
    requires Lifecycle(s) && Runs(s, acts, t)
    ensures s.agg.phase.Rank() <= t.agg.phase.Rank()
    ensures s.agg.log <= t.agg.log
    decreases acts
  {
    if acts != [] {
      NextLifecycle(s, acts[0]);
      if acts[0].Exec? {
        ExecLifecycle(s.agg, acts[0].i, s.jobs[acts[0].i].todo[0], acts[0].c);
        ExecLog(s.agg, acts[0].i, s.jobs[acts[0].i].todo[0], acts[0].c);
      }
      RunMonotone(Next(s, acts[0]), acts[1..], t);
    }
  }
}
